# VillageVoice dialogue manager — a verified Dafny model

VillageVoice shows scripted dialogue in a Unity scene as a typewriter: each
line appears one character per typing interval. Every revealed character
plays a short voice blip chosen by its sound. Korean syllables are classed by
their medial vowel. Digits use the vowel of their Korean reading. Other
letters use their own vowel or the U clip. Punctuation uses a global table.
The Space key either completes the line being typed or moves to the next line.

This project models `DialogueManager` (Assets/Scripts/DialogueManager.cs) with
its speaker record `CharacterData` folded in as a datatype:

- `hangul.dfy` — module `Hangul`: the syllable decomposition of section 3.12
  of the Unicode Standard. The vowel index the source computes is proved to be
  the medial vowel the syllable is composed from.
- `unicode_tables.dfy` — module `Unicode`: the .NET queries `char.IsLetter`,
  `IsDigit`, `IsPunctuation` and `ToLower` as a parameter `CharTables`.
  `WellFormed` lists the ASCII, Hangul, `'~'` and space facts the properties
  use. `AsciiHangulTables` is a concrete instance that satisfies them.
- `character_sounds.dfy` — module `CharacterSounds`: the classifier
  (`GetNumberSound`, `GetKoreanVowelSound`, `GetEnglishVowelSound`,
  `GetVowelSound`, `GetPunctuationSound`). It also gives the AudioSource calls
  `PlayCharacterSound` makes (`SoundEvents`) and those made over a whole
  message (`TypingAudio`).
- `dialogue_manager.dfy` — module `Dialogue`: the class `DialogueManager`
  with the source's fields (`currentDialogue`, `currentLineIndex`, `isTyping`,
  `currentCharacter`, the displayed text). The `TypeText` coroutine is an
  explicit reveal offset. `Tick` is one elapsed typing interval. `PressSpace`
  is the Space handler in `Update`. Calls on the AudioSource are recorded as
  `Stop`/`Play(clip)` events, and calls of `SetupCharacterUI` as a list of
  speakers. Module `DialogueScenario` is a client: a one-line script "Hi!" is
  typed out and then advanced past its end.

Behaviour kept as the code has it:

- Unity runs a coroutine up to its first wait at once. So when a line is
  displayed, its first character and its sound are already out.
- `isTyping` stays true for one more interval after the last character,
  because each character is followed by a wait.
- Past the end of a non-looping script, every advance increments
  `currentLineIndex` and shows nothing.
- Digit `'0'` plays the O clip. The comment beside it reads 영 as an E sound,
  and the lemmas `NumberVowelIsNumeralVowel` and `ZeroIsNotItsNumeralVowel`
  show that 0 is the only digit whose clip differs from the vowel of its
  Korean numeral.
- `'~'` is a math symbol to .NET, so `char.IsPunctuation` rejects it and it
  only stops the audio. Its case in the punctuation table is never reached.
- The final `return currentCharacter.defaultSound` of `GetVowelSound` cannot
  be reached from `PlayCharacterSound`.
- Exceptions are returned as a `Fault` value, and the state is what the code
  had reached when it threw. Space with no script bound throws a null
  reference. A looping script with no lines throws an index error when
  advanced past its end.
- An unset vowel or punctuation clip plays nothing. There is no fallback to
  the default clip.
- Completing a line does not stop the audio.
- Space after a line is complete advances to the next line.

## Model

| member | source | states |
|---|---|---|
| `Hangul.SyllableIndex` | Assets/Scripts/DialogueManager.cs:198-200 | a character that passes the 가..힣 test has an offset from 가 below 11172 |
| `Hangul.VowelIndex` | Assets/Scripts/DialogueManager.cs:264-265 | for every syllable the computed vowel index lies in [0, 20] |
| `Hangul.DecomposeCompose` | Assets/Scripts/DialogueManager.cs:264-265 | for a syllable built from any lead, vowel and trail, the computed vowel index is exactly that vowel (and lead and trail are recovered too) |
| `Hangul.ComposeDecompose` | Assets/Scripts/DialogueManager.cs:198-200 | every character in 가..힣 is the composition of its three indices, so the index arithmetic loses nothing |
| `Unicode.AsciiHangulTables` | Assets/Scripts/DialogueManager.cs:165-176 | the .NET facts the properties assume are satisfiable: ASCII letters and Hangul are letters, 0-9 are digits, the named marks are punctuation, '~' and space are neither |
| `CharacterSounds.NumberVowel` | Assets/Scripts/DialogueManager.cs:243-259 | GetNumberSound: each ASCII digit gets its entry of the independent table `DigitVowels`, and every other character Default; `DigitSounds` and `NumberVowelIsNumeralVowel` state its properties |
| `CharacterSounds.DigitSounds` | Assets/Scripts/DialogueManager.cs:243-259 | an ASCII digit gets its table entry (0→O, 1→I, 2→I, 3→A, 4→A, 5→O, 6→U, 7→I, 8→A, 9→U); any other .NET digit gets the default clip |
| `CharacterSounds.NumberVowelIsNumeralVowel` | Assets/Scripts/DialogueManager.cs:249-257 | digits 1-9 sound like the medial vowel of their Korean numeral 일 이 삼 사 오 육 칠 팔 구 |
| `CharacterSounds.ZeroIsNotItsNumeralVowel` | Assets/Scripts/DialogueManager.cs:248 | digit 0 plays O although its numeral 영 classes as E |
| `CharacterSounds.KoreanVowel` | Assets/Scripts/DialogueManager.cs:262-296 | GetKoreanVowelSound: every syllable of the block gets the class, in the 21-entry table `MedialVowelClass`, of its medial vowel; `KoreanVowelOfComposed` and `KoreanExamples` state its properties |
| `CharacterSounds.KoreanVowelOfComposed` | Assets/Scripts/DialogueManager.cs:262-296 | a syllable's class depends only on its medial vowel: {0-3}→A, {4-7}→E, {8,12}→O, {13,17,18}→U, {20}→I, the rest Default, whatever its consonants |
| `CharacterSounds.KoreanExamples` | Assets/Scripts/DialogueManager.cs:262-296 | each class is reached: 가→A, 너→E (its medial vowel ㅓ has index 4), 모→O, 수→U, 미→I, 과→Default |
| `CharacterSounds.HangulSounds` | Assets/Scripts/DialogueManager.cs:189-201 | the digit test before the Hangul test never captures a syllable; syllables are classed by medial vowel |
| `CharacterSounds.EnglishVowel` | Assets/Scripts/DialogueManager.cs:298-311 | GetEnglishVowelSound: a letter whose lower-case form is a, e, i or o gets A, E, I or O, and every other letter gets U, so never Default; `LatinSounds` and `CaseInsensitive` state it for ASCII |
| `CharacterSounds.VowelOf` | Assets/Scripts/DialogueManager.cs:189-210 | GetVowelSound: a letter that is neither a digit nor a syllable (ASCII, compatibility jamo such as ㅏ, é) gets its GetEnglishVowelSound class and never Default, and a digit gets Default exactly when it is not ASCII; `DigitSounds` and `HangulSounds` state the digit and syllable classes |
| `CharacterSounds.LatinSounds` | Assets/Scripts/DialogueManager.cs:298-311 | for ASCII letters, A iff a/A, E iff e/E, I iff i/I, O iff o/O, and U for u/U and every consonant; never Default |
| `CharacterSounds.CaseInsensitive` | Assets/Scripts/DialogueManager.cs:300 | an upper-case ASCII letter sounds exactly like its lower-case form |
| `CharacterSounds.DefaultNeedsDigitOrHangul` | Assets/Scripts/DialogueManager.cs:189-210 | for a letter or digit, the default clip comes only from a non-ASCII digit or a Hangul syllable with a rare vowel |
| `CharacterSounds.PunctuationClass` | Assets/Scripts/DialogueManager.cs:212-241 | GetPunctuationSound's switch: the dot class exactly for . , ; :, the question class exactly for ?, the exclamation class exactly for !, and the default class for every other character; `PunctuationSounds` states the clips |
| `CharacterSounds.PunctuationSounds` | Assets/Scripts/DialogueManager.cs:212-241 | for every character .NET calls punctuation and neither a letter nor a digit: . , ; : play dotSound, ? questionSound, ! exclamationSound, and every other mark (the other named ones, '@', '/', '…' and so on) defaultPuncSound |
| `CharacterSounds.PunctuationIgnoresSpeaker` | Assets/Scripts/DialogueManager.cs:176-186 | a character that is neither letter nor digit produces the same audio calls whoever the speaker is |
| `CharacterSounds.TildeAndSpaceAreSilent` | Assets/Scripts/DialogueManager.cs:176-186 | '~' (a .NET math symbol, so the '~' case at line 228 is dead) and space only stop the audio |
| `CharacterSounds.CharacterClip` | Assets/Scripts/DialogueManager.cs:165-186 | a letter or digit plays the speaker's clip for its GetVowelSound class; a clip is chosen only for letters, digits and punctuation |
| `CharacterSounds.SoundEvents` | Assets/Scripts/DialogueManager.cs:159-187 | without a speaker no call; otherwise a Stop first, then one Play exactly when the character's clip is set, and it plays that clip |
| `CharacterSounds.TypingAudio` | Assets/Scripts/DialogueManager.cs:149-154 | the calls over a revealed message: none without a speaker, otherwise between one and two per character; `TypingAudioSnoc` and `OneDecisionPerCharacter` state how it grows |
| `CharacterSounds.TypingAudioSnoc` | Assets/Scripts/DialogueManager.cs:149-154 | revealing one more character adds exactly that character's calls to the audio of the line |
| `CharacterSounds.OneDecisionPerCharacter` | Assets/Scripts/DialogueManager.cs:149-154 | with a speaker, revealing a message stops the audio once per character and plays at most one clip per character |
| `DialogueScenario.HiSounds` | Assets/Scripts/DialogueManager.cs:159-187 | under any tables with .NET's answers, 'H' (a consonant) plays the U clip and 'i' the I clip, each after a Stop |
| `DialogueScenario.ExclamationSound` | Assets/Scripts/DialogueManager.cs:159-187 | under any tables with .NET's answers, '!' plays the exclamation clip after a Stop, whatever the speaker's own clips |
| `Dialogue.TypingSpeed` | Assets/Scripts/DialogueManager.cs:96-97 | slow lines use 0.3; otherwise the speaker's interval when it is positive, and the manager's default interval when it is not |
| `Dialogue.DialogueManager.constructor` | Assets/Scripts/DialogueManager.cs:22-29 | starts at line 0, not typing, no current character |
| `Dialogue.DialogueManager.Start` | Assets/Scripts/DialogueManager.cs:31-37 | with no script nothing changes; otherwise as StartDialogue |
| `Dialogue.DialogueManager.SetDialogue` | Assets/Scripts/DialogueManager.cs:57-62 | binds the script and resets the index to 0; a missing or empty script changes nothing else; otherwise line 0 is shown |
| `Dialogue.DialogueManager.StartDialogue` | Assets/Scripts/DialogueManager.cs:64-73 | a missing or empty script only warns (state unchanged); otherwise the current line is displayed |
| `Dialogue.DialogueManager.DisplayCurrentLine` | Assets/Scripts/DialogueManager.cs:75-105 | in range: the line's speaker becomes current; a null speaker starts no typing; otherwise the speaker is announced and typing begins at TypingSpeed. Past the end: looping shows line 0, non-looping changes nothing; no script or an empty looping script faults |
| `Dialogue.DialogueManager.NextDialogue` | Assets/Scripts/DialogueManager.cs:131-135 | the index goes up by one and the next line is shown; past the end of a non-looping script only the index changes, on every later advance too |
| `Dialogue.DialogueManager.CompleteCurrentLine` | Assets/Scripts/DialogueManager.cs:137-142 | typing stops and the text becomes the full current line; index, speaker and audio are unchanged |
| `Dialogue.DialogueManager.PressSpace` | Assets/Scripts/DialogueManager.cs:39-55 | while typing, Space completes the line without moving the index; otherwise it advances as NextDialogue |
| `Dialogue.DialogueManager.TypeText` | Assets/Scripts/DialogueManager.cs:144-153 | the text is cleared, the first character is shown with its sound, and typing goes on exactly when the message is non-empty |
| `Dialogue.DialogueManager.Tick` | Assets/Scripts/DialogueManager.cs:149-156 | after a wait the next character is appended with its sound; once all are shown, one more wait clears isTyping; the script, line, speaker, message, interval and announced speakers stay as they were; the invariant keeps text == message[..k] and the line's audio == TypingAudio(message[..k]) |
| `Dialogue.DialogueManager.FinishTyping` | Assets/Scripts/DialogueManager.cs:144-157 | left to run, the reveal ends with the whole line shown, isTyping false, and one sound decision per remaining character; the script, line, speaker, message, interval and announced speakers stay as they were |
| `Dialogue.DialogueManager.PlayCharacterSound` | Assets/Scripts/DialogueManager.cs:159-187 | appends exactly SoundEvents of the character to the audio calls |

## Left out

- Unicode categories: `char.IsLetter`, `IsDigit`, `IsPunctuation` and `ToLower` are a parameter. Only the facts in `Unicode.WellFormed` are assumed. These include the usual lower-casing of ASCII. Under a Turkish culture `'I'` lowers to dotless ı and would get the U clip.
- Characters are Unicode scalar values. C# iterates a string by UTF-16 code units, so the source makes two sound decisions (two Stops) for a character outside the Basic Multilingual Plane. The model makes one.
- `currentLineIndex` is an unbounded integer. The source's 32-bit index would wrap after about 2^31 advances past the end of a script.
- `Dialogue.DialogueManager.Start`: requires that no line is being typed. If another component calls `SetDialogue` before this component's `Start` runs, the first line is already typing, and `Start` then begins a second reveal beside it. That interleaving is not modelled.
- `Dialogue.DialogueManager.SetDialogue`: requires that no line is being typed. Called mid-reveal, the source leaves the old coroutine running beside the new one. That interleaving is not modelled.
- Timing: `WaitForSeconds` is one `Tick` per interval. The chosen interval is stored, but elapsed time is not modelled. `StartCoroutine` and `StopAllCoroutines` are the `isTyping` flag and the reveal offset.
- Unity UI: name text, colour, portrait sprite and `SetActive` (lines 107-129) are one recorded speaker-change event. Pitch and volume (lines 125-126) are float settings of the AudioSource and are not modelled. Unwired inspector references (a null Text or AudioSource) are assumed not to happen.
- `Debug.Log` and `Debug.LogWarning` diagnostics, and the editor-only `TestNextDialogue` (lines 313-321).
- Speed values are `real`, not 32-bit floats.
- `DialogueData` and `DialogueLine` are modelled from their uses in DialogueManager.cs (`dialogueLines`, `loopDialogue`, `speaker`, `message`, `useSlowTyping`); DialogueData.cs itself is not part of this model. A null `dialogueLines` array is not modelled.
- CharacterData's name colour, portrait, pitch, volume and description only feed the UI. The `[Range]` attributes are editor hints and are not enforced.
