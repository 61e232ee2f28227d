/** The per-character voice blip of DialogueManager: which clip a revealed
    character plays. Letters and digits are classed by vowel and looked up in
    the speaker's sound bank (CharacterData); punctuation is looked up in the
    manager's global punctuation clips; everything else is silent. */
module CharacterSounds {
  import opened Wrappers
  import opened Unicode
  import Hangul

  /** An opaque handle on an audio asset (a Unity AudioClip). */
  datatype Clip = Clip(id: nat)

  /** The six voice slots of a speaker. */
  datatype Vowel = A | E | I | O | U | Default

  /** CharacterData: a speaker's name, six optional clips and typing interval
      in seconds. Portrait, colour, pitch, volume and description only feed
      the user interface and are not part of this model. */
  datatype Speaker = Speaker(
    characterName: string,
    aSound: Option<Clip>,
    eSound: Option<Clip>,
    iSound: Option<Clip>,
    oSound: Option<Clip>,
    uSound: Option<Clip>,
    defaultSound: Option<Clip>,
    typingSpeed: real)
  {
    function SoundFor(v: Vowel): Option<Clip>
    {
      match v
      case A => aSound
      case E => eSound
      case I => iSound
      case O => oSound
      case U => uSound
      case Default => defaultSound
    }
  }

  datatype Punctuation = Dot | Question | Exclamation | OtherPunctuation

  /** The manager's four punctuation clips, shared by all speakers. */
  datatype PunctuationBank = PunctuationBank(
    dotSound: Option<Clip>,
    questionSound: Option<Clip>,
    exclamationSound: Option<Clip>,
    defaultPuncSound: Option<Clip>)
  {
    function SoundFor(p: Punctuation): Option<Clip>
    {
      match p
      case Dot => dotSound
      case Question => questionSound
      case Exclamation => exclamationSound
      case OtherPunctuation => defaultPuncSound
    }
  }

  /** A call made on the AudioSource. */
  datatype AudioEvent = Stop | Play(clip: Clip)

  // ---------------------------------------------------------------------
  // Digits

  /** GetNumberSound: the vowel of the digit's Korean reading. */
  function NumberVowel(c: char): (v: Vowel)
    ensures IsAsciiDigit(c) ==> v == DigitVowels[c as int - '0' as int]
    ensures !IsAsciiDigit(c) ==> v == Default
  {
    match c
    case '0' => O
    case '1' => I
    case '2' => I
    case '3' => A
    case '4' => A
    case '5' => O
    case '6' => U
    case '7' => I
    case '8' => A
    case '9' => U
    case _ => Default
  }

  /** The Sino-Korean numerals 영 일 이 삼 사 오 육 칠 팔 구, for 0 to 9. */
  const Numerals: string := "영일이삼사오육칠팔구"

  /** Digits 1 to 9 sound like the vowel of their Korean numeral, read through
      the same Hangul decomposition the classifier applies to Korean text. */
  lemma NumberVowelIsNumeralVowel(c: char)
    requires '1' <= c <= '9'
    ensures Hangul.IsSyllable(Numerals[c as int - '0' as int])
    ensures NumberVowel(c) == KoreanVowel(Numerals[c as int - '0' as int])
  {
  }

  /** Digit 0 is the exception: its numeral 영 has the vowel ㅕ, an E sound,
      but the digit plays the O clip. */
  lemma ZeroIsNotItsNumeralVowel()
    ensures Hangul.IsSyllable(Numerals[0]) && KoreanVowel(Numerals[0]) == E
    ensures NumberVowel('0') == O
  {
  }

  // ---------------------------------------------------------------------
  // Hangul syllables

  /** The class of each of the 21 medial vowels, in Unicode order:
      ㅏ ㅐ ㅑ ㅒ → A, ㅓ ㅔ ㅕ ㅖ → E, ㅗ → O, ㅘ ㅙ ㅚ → Default, ㅛ → O,
      ㅜ → U, ㅝ ㅞ ㅟ → Default, ㅠ ㅡ → U, ㅢ → Default, ㅣ → I. */
  const MedialVowelClass: seq<Vowel> :=
    [A, A, A, A, E, E, E, E, O, Default, Default, Default, O, U,
     Default, Default, Default, U, U, Default, I]

  /** GetKoreanVowelSound: buckets the medial-vowel index. */
  function KoreanVowel(c: char): (v: Vowel)
    requires Hangul.IsSyllable(c)
    ensures v == MedialVowelClass[Hangul.VowelIndex(c)]
  {
    match Hangul.VowelIndex(c)
    case 0 | 1 | 2 | 3 => A
    case 4 | 5 | 6 | 7 => E
    case 8 | 12 => O
    case 13 | 17 | 18 => U
    case 20 => I
    case _ => Default
  }

  /** A syllable's class is the class of its medial vowel alone: the leading
      and trailing consonants never matter. */
  lemma {:induction false} KoreanVowelOfComposed(l: nat, v: nat, t: nat)
    requires l < Hangul.LCount && v < Hangul.VCount && t < Hangul.TCount
    ensures KoreanVowel(Hangul.Compose(l, v, t)) == MedialVowelClass[v]
  {
    Hangul.DecomposeCompose(l, v, t);
  }

  /** Each class is reached: 가 → A, 너 → E, 모 → O, 수 → U, 미 → I, 과 → Default. */
  lemma KoreanExamples()
    ensures KoreanVowel('가') == A && KoreanVowel('너') == E && KoreanVowel('모') == O
    ensures KoreanVowel('수') == U && KoreanVowel('미') == I && KoreanVowel('과') == Default
  {
  }

  // ---------------------------------------------------------------------
  // Other letters

  /** GetEnglishVowelSound: lower-case, then a/e/i/o/u to their own clip and
      every other letter to U. */
  function EnglishVowel(t: CharTables, c: char): (v: Vowel)
    ensures v != Default
    ensures t.toLower(c) == 'a' ==> v == A
    ensures t.toLower(c) == 'e' ==> v == E
    ensures t.toLower(c) == 'i' ==> v == I
    ensures t.toLower(c) == 'o' ==> v == O
    ensures v == U <==> !(t.toLower(c) in "aeio")
  {
    match t.toLower(c)
    case 'a' => A
    case 'e' => E
    case 'i' => I
    case 'o' => O
    case 'u' => U
    case _ => U
  }

  // ---------------------------------------------------------------------
  // Letters and digits

  /** GetVowelSound's classification: digits first, then Hangul syllables,
      then other letters; anything else falls to Default. */
  function VowelOf(t: CharTables, c: char): (v: Vowel)
    ensures t.isLetter(c) && !t.isDigit(c) && !Hangul.IsSyllable(c) ==> v == EnglishVowel(t, c) && v != Default
    ensures t.isDigit(c) ==> (v == Default <==> !IsAsciiDigit(c))
  {
    if t.isDigit(c) then NumberVowel(c)
    else if Hangul.IsSyllable(c) then KoreanVowel(c)
    else if t.isLetter(c) then EnglishVowel(t, c)
    else Default
  }

  /** The digit table: position k of this sequence is the class of digit k. */
  const DigitVowels: seq<Vowel> := [O, I, I, A, A, O, U, I, A, U]

  /** ASCII digits get their table entry; a digit of another script (which
      .NET also counts as a digit) gets the default clip. */
  lemma DigitSounds(t: CharTables, c: char)
    requires WellFormed(t) && t.isDigit(c)
    ensures IsAsciiDigit(c) ==> VowelOf(t, c) == DigitVowels[c as int - '0' as int]
    ensures !IsAsciiDigit(c) ==> VowelOf(t, c) == Default
  {
  }

  /** Hangul syllables are classed by their medial vowel. */
  lemma HangulSounds(t: CharTables, c: char)
    requires WellFormed(t) && Hangul.IsSyllable(c)
    ensures VowelOf(t, c) == MedialVowelClass[Hangul.VowelIndex(c)]
  {
  }

  /** ASCII letters are classed without regard to case: A/a, E/e, I/i, O/o
      each get their own clip, and every other letter, U included, gets U. */
  lemma LatinSounds(t: CharTables, c: char)
    requires WellFormed(t) && (IsAsciiUpper(c) || IsAsciiLower(c))
    ensures VowelOf(t, c) == A <==> c == 'a' || c == 'A'
    ensures VowelOf(t, c) == E <==> c == 'e' || c == 'E'
    ensures VowelOf(t, c) == I <==> c == 'i' || c == 'I'
    ensures VowelOf(t, c) == O <==> c == 'o' || c == 'O'
    ensures VowelOf(t, c) == U <==> !(c in "aAeEiIoO")
  {
    assert !Hangul.IsSyllable(c);
  }

  /** Case does not matter: an upper-case ASCII letter sounds like its
      lower-case form. */
  lemma CaseInsensitive(t: CharTables, c: char)
    requires WellFormed(t) && IsAsciiUpper(c)
    ensures VowelOf(t, c) == VowelOf(t, AsciiLower(c))
  {
    assert !Hangul.IsSyllable(c) && !Hangul.IsSyllable(AsciiLower(c));
  }

  /** A letter outside the Hangul block never gets the default clip: the
      default comes only from a non-ASCII digit or a rare Hangul vowel. */
  lemma DefaultNeedsDigitOrHangul(t: CharTables, c: char)
    requires t.isLetter(c) || t.isDigit(c)
    ensures VowelOf(t, c) == Default ==>
              (t.isDigit(c) && !IsAsciiDigit(c)) ||
              (!t.isDigit(c) && Hangul.IsSyllable(c) && MedialVowelClass[Hangul.VowelIndex(c)] == Default)
  {
  }

  // ---------------------------------------------------------------------
  // Punctuation

  /** GetPunctuationSound's table. */
  function PunctuationClass(c: char): (p: Punctuation)
    ensures p == Dot <==> c in ".,;:"
    ensures p == Question <==> c == '?'
    ensures p == Exclamation <==> c == '!'
  {
    match c
    case '.' | ',' | ';' | ':' => Dot
    case '?' => Question
    case '!' => Exclamation
    case _ => OtherPunctuation
  }

  // ---------------------------------------------------------------------
  // One character

  /** The clip PlayCharacterSound hands to the AudioSource for `c`, if any. */
  function CharacterClip(t: CharTables, bank: PunctuationBank, speaker: Speaker, c: char): (r: Option<Clip>)
    ensures r.Some? ==> t.isLetter(c) || t.isDigit(c) || t.isPunctuation(c)
    ensures t.isLetter(c) || t.isDigit(c) ==> r == speaker.SoundFor(VowelOf(t, c))
  {
    if t.isLetter(c) || t.isDigit(c) then speaker.SoundFor(VowelOf(t, c))
    else if t.isPunctuation(c) then bank.SoundFor(PunctuationClass(c))
    else None
  }

  /** The AudioSource calls PlayCharacterSound makes for `c`: nothing without
      a speaker; otherwise a Stop, then one Play when the character has a clip. */
  function SoundEvents(t: CharTables, bank: PunctuationBank, speaker: Option<Speaker>, c: char): (r: seq<AudioEvent>)
    ensures r == [] <==> speaker.None?
    ensures speaker.Some? ==> r[0] == Stop && 1 <= |r| <= 2
    ensures |r| == 2 <==> speaker.Some? && CharacterClip(t, bank, speaker.value, c).Some?
    ensures |r| == 2 ==> r[1] == Play(CharacterClip(t, bank, speaker.value, c).value)
  {
    if speaker.None? then []
    else
      match CharacterClip(t, bank, speaker.value, c)
      case Some(clip) => [Stop, Play(clip)]
      case None => [Stop]
  }

  /** Punctuation sounds the same whoever speaks. */
  lemma PunctuationIgnoresSpeaker(t: CharTables, bank: PunctuationBank, s1: Speaker, s2: Speaker, c: char)
    requires !t.isLetter(c) && !t.isDigit(c)
    ensures SoundEvents(t, bank, Some(s1), c) == SoundEvents(t, bank, Some(s2), c)
  {
  }

  /** The punctuation table: . , ; : play the dot clip, ? the question clip,
      ! the exclamation clip, and every other mark .NET calls punctuation
      (the other named marks, '@', '/', '…' and so on) the default
      punctuation clip. */
  lemma PunctuationSounds(t: CharTables, bank: PunctuationBank, speaker: Speaker, c: char)
    requires !t.isLetter(c) && !t.isDigit(c) && t.isPunctuation(c)
    ensures c in ".,;:" ==> CharacterClip(t, bank, speaker, c) == bank.dotSound
    ensures c == '?' ==> CharacterClip(t, bank, speaker, c) == bank.questionSound
    ensures c == '!' ==> CharacterClip(t, bank, speaker, c) == bank.exclamationSound
    ensures !(c in ".,;:?!") ==> CharacterClip(t, bank, speaker, c) == bank.defaultPuncSound
  {
  }

  /** '~' is a math symbol to .NET, so the '~' case of the punctuation table is
      never reached: the tilde, like the space, only stops the audio. */
  lemma TildeAndSpaceAreSilent(t: CharTables, bank: PunctuationBank, speaker: Speaker)
    requires WellFormed(t)
    ensures SoundEvents(t, bank, Some(speaker), '~') == [Stop]
    ensures SoundEvents(t, bank, Some(speaker), ' ') == [Stop]
  {
  }

  // ---------------------------------------------------------------------
  // A whole message

  /** The AudioSource calls made while revealing `s` character by character. */
  function TypingAudio(t: CharTables, bank: PunctuationBank, speaker: Option<Speaker>, s: string): (r: seq<AudioEvent>)
    ensures speaker.None? ==> r == []
    ensures speaker.Some? ==> |s| <= |r| <= 2 * |s|
  {
    if s == [] then [] else SoundEvents(t, bank, speaker, s[0]) + TypingAudio(t, bank, speaker, s[1..])
  }

  /** Revealing one more character adds exactly that character's calls. */
  lemma {:induction false} TypingAudioSnoc(t: CharTables, bank: PunctuationBank, speaker: Option<Speaker>, s: string, c: char)
    ensures TypingAudio(t, bank, speaker, s + [c]) == TypingAudio(t, bank, speaker, s) + SoundEvents(t, bank, speaker, c)
  {
    if s != [] {
      assert (s + [c])[1..] == s[1..] + [c];
      TypingAudioSnoc(t, bank, speaker, s[1..], c);
    }
  }

  function StopCount(log: seq<AudioEvent>): nat
  {
    if log == [] then 0 else (if log[0] == Stop then 1 else 0) + StopCount(log[1..])
  }

  lemma {:induction false} StopCountAppend(a: seq<AudioEvent>, b: seq<AudioEvent>)
    ensures StopCount(a + b) == StopCount(a) + StopCount(b)
  {
    if a == [] {
      assert a + b == b;
    } else {
      assert (a + b)[1..] == a[1..] + b;
      StopCountAppend(a[1..], b);
    }
  }

  /** One sound decision per character: with a speaker, revealing `s` stops
      the audio exactly |s| times and plays at most |s| clips. */
  lemma {:induction false} OneDecisionPerCharacter(t: CharTables, bank: PunctuationBank, speaker: Speaker, s: string)
    ensures StopCount(TypingAudio(t, bank, Some(speaker), s)) == |s|
    ensures |TypingAudio(t, bank, Some(speaker), s)| <= 2 * |s|
  {
    if s != [] {
      var head := SoundEvents(t, bank, Some(speaker), s[0]);
      OneDecisionPerCharacter(t, bank, speaker, s[1..]);
      StopCountAppend(head, TypingAudio(t, bank, Some(speaker), s[1..]));
      assert StopCount(head) == 1 by {
        assert head[1..] == [] || head[1..] == [head[1]];
      }
    }
  }
}
