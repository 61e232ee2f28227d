/** The dialogue controller of DialogueManager: it binds a script, shows one
    line at a time and reveals it one character per typing interval (the
    TypeText coroutine), playing a voice blip for each character; the Space
    key either completes the line being typed or moves to the next line. */
module Dialogue {
  import opened Wrappers
  import opened Unicode
  import opened CharacterSounds

  /** One scripted line: who says it, what, and whether to type it slowly. */
  datatype DialogueLine = DialogueLine(speaker: Option<Speaker>, message: string, useSlowTyping: bool)

  /** A script: its lines and whether it restarts after the last one. */
  datatype DialogueData = DialogueData(dialogueLines: seq<DialogueLine>, loopDialogue: bool)

  /** The exceptions the source can throw out of a key press. Unity logs them
      and carries on with whatever state the code had reached. */
  datatype Fault =
    | NullDialogue     // NullReferenceException: no script bound
    | IndexOutOfRange  // IndexOutOfRangeException: a looping script with no lines

  /** The fixed interval of a line marked for slow typing, in seconds. */
  const SlowTypingSpeed: real := 0.3

  /** The interval between revealed characters: slow lines use the fixed slow
      interval; other lines use the speaker's own interval when it is positive
      and the manager's default otherwise. */
  function TypingSpeed(line: DialogueLine, speaker: Speaker, defaultTypingSpeed: real): (r: real)
    ensures line.useSlowTyping ==> r == SlowTypingSpeed
    ensures !line.useSlowTyping && speaker.typingSpeed > 0.0 ==> r == speaker.typingSpeed
    ensures !line.useSlowTyping && speaker.typingSpeed <= 0.0 ==> r == defaultTypingSpeed
  {
    if line.useSlowTyping then SlowTypingSpeed
    else if speaker.typingSpeed > 0.0 then speaker.typingSpeed
    else defaultTypingSpeed
  }

  /** Dropping a prefix of the older part of a log keeps what was appended. */
  lemma DropAppend(a: seq<AudioEvent>, b: seq<AudioEvent>, k: nat)
    requires k <= |a|
    ensures (a + b)[k..] == a[k..] + b
  {
  }

  /** The audio of a reveal, one character further on. */
  lemma TypingAudioStep(t: CharTables, bank: PunctuationBank, speaker: Option<Speaker>,
                        msg: string, start: nat, r: nat, log: seq<AudioEvent>)
    requires start <= r < |msg|
    ensures log + TypingAudio(t, bank, speaker, msg[start..r]) + SoundEvents(t, bank, speaker, msg[r])
         == log + TypingAudio(t, bank, speaker, msg[start..r + 1])
  {
    assert msg[start..r + 1] == msg[start..r] + [msg[r]];
    TypingAudioSnoc(t, bank, speaker, msg[start..r], msg[r]);
  }

  class DialogueManager {
    // Inspector settings, fixed while the game runs.
    const tables: CharTables
    const punctuation: PunctuationBank
    const defaultTypingSpeed: real

    var currentDialogue: Option<DialogueData>
    var currentLineIndex: int
    var isTyping: bool
    var currentCharacter: Option<Speaker>
    var dialogueText: string

    // The suspended TypeText coroutine, meaningful while isTyping: the message
    // it types, its interval and how many characters it has shown.
    var typingMessage: string
    var typingSpeed: real
    var revealed: nat

    // Calls made on the collaborators: the AudioSource, and SetupCharacterUI
    // (name, colour, portrait, pitch and volume of the speaker).
    var audioLog: seq<AudioEvent>
    var speakerChanges: seq<Speaker>

    // Where in audioLog the line being typed began.
    ghost var lineAudioStart: nat

    /** The line the coroutine is typing is the current line of the bound
        script, spoken by the current character; the text shows the first
        `revealed` characters, and each of them has made one sound decision. */
    ghost predicate TypingCurrentLine()
      reads this
    {
      && currentDialogue.Some?
      && 0 <= currentLineIndex < |currentDialogue.value.dialogueLines|
      && typingMessage == currentDialogue.value.dialogueLines[currentLineIndex].message
      && currentCharacter == currentDialogue.value.dialogueLines[currentLineIndex].speaker
      && currentCharacter.Some?
      && 1 <= revealed <= |typingMessage|
      && dialogueText == typingMessage[..revealed]
      && lineAudioStart <= |audioLog|
      && audioLog[lineAudioStart..] == TypingAudio(tables, punctuation, currentCharacter, typingMessage[..revealed])
    }

    ghost predicate Valid()
      reads this
    {
      && currentLineIndex >= 0
      && (isTyping ==> TypingCurrentLine())
    }

    /** Everything but the line index is as before. */
    twostate predicate OnlyIndexChanged()
      reads this
    {
      && currentDialogue == old(currentDialogue)
      && isTyping == old(isTyping)
      && currentCharacter == old(currentCharacter)
      && dialogueText == old(dialogueText)
      && typingMessage == old(typingMessage)
      && typingSpeed == old(typingSpeed)
      && revealed == old(revealed)
      && audioLog == old(audioLog)
      && speakerChanges == old(speakerChanges)
    }

    /** A reveal is under way on the same line: the script, the line, its
        speaker, its message, its interval and the announced speakers are as
        before. */
    twostate predicate SameReveal()
      reads this
    {
      && currentDialogue == old(currentDialogue)
      && currentLineIndex == old(currentLineIndex)
      && currentCharacter == old(currentCharacter)
      && typingMessage == old(typingMessage)
      && typingSpeed == old(typingSpeed)
      && speakerChanges == old(speakerChanges)
    }

    /** The first step of TypeText has run on `message`: the text was cleared,
        the first character (if any) shown with its sound, and typing goes on
        exactly when there was a character to show. */
    twostate predicate BeganTyping(message: string, speed: real)
      reads this
    {
      var shown := if message == [] then 0 else 1;
      && typingMessage == message
      && typingSpeed == speed
      && revealed == shown
      && isTyping == (message != [])
      && dialogueText == message[..shown]
      && audioLog == old(audioLog) + TypingAudio(tables, punctuation, currentCharacter, message[..shown])
    }

    /** DisplayCurrentLine has shown line k of the bound script: its speaker
        is the current character; a line without a speaker changes nothing
        else; otherwise the speaker is announced and typing begins at the
        chosen interval. */
    twostate predicate ShowedLine(k: int)
      reads this
    {
      && currentDialogue.Some?
      && 0 <= k < |currentDialogue.value.dialogueLines|
      && currentLineIndex == k
      && var line := currentDialogue.value.dialogueLines[k];
         && currentCharacter == line.speaker
         && (line.speaker.None? ==>
               && isTyping == old(isTyping)
               && dialogueText == old(dialogueText)
               && typingMessage == old(typingMessage)
               && typingSpeed == old(typingSpeed)
               && revealed == old(revealed)
               && audioLog == old(audioLog)
               && speakerChanges == old(speakerChanges))
         && (line.speaker.Some? ==>
               && speakerChanges == old(speakerChanges) + [line.speaker.value]
               && BeganTyping(line.message, TypingSpeed(line, line.speaker.value, defaultTypingSpeed)))
    }

    constructor (tables: CharTables, punctuation: PunctuationBank, defaultTypingSpeed: real,
                 dialogue: Option<DialogueData>)
      ensures Valid() && !isTyping
      ensures this.tables == tables && this.punctuation == punctuation
      ensures this.defaultTypingSpeed == defaultTypingSpeed
      ensures currentDialogue == dialogue && currentLineIndex == 0
      ensures currentCharacter == None && dialogueText == ""
      ensures audioLog == [] && speakerChanges == []
    {
      this.tables := tables;
      this.punctuation := punctuation;
      this.defaultTypingSpeed := defaultTypingSpeed;
      currentDialogue := dialogue;
      currentLineIndex := 0;
      isTyping := false;
      currentCharacter := None;
      dialogueText := "";
      typingMessage := "";
      typingSpeed := 0.0;
      revealed := 0;
      audioLog := [];
      speakerChanges := [];
      lineAudioStart := 0;
    }

    /** Start: begin the script the manager was set up with, if any. */
    method Start()
      requires Valid() && !isTyping
      modifies this
      ensures Valid()
      ensures old(currentDialogue).None? ==> unchanged(this)
      ensures old(currentDialogue).Some? ==> StartedDialogue()
      ensures currentDialogue == old(currentDialogue)
    {
      if currentDialogue.Some? {
        StartDialogue();
      }
    }

    /** What StartDialogue does: an empty or missing script only warns; a
        script with lines shows the current line, or, when the index is past
        the end, line 0 of a looping script and nothing at all otherwise. */
    twostate predicate StartedDialogue()
      reads this
    {
      var d := old(currentDialogue);
      if d.None? || |d.value.dialogueLines| == 0 then unchanged(this)
      else if old(currentLineIndex) < |d.value.dialogueLines| then ShowedLine(old(currentLineIndex))
      else if d.value.loopDialogue then ShowedLine(0)
      else unchanged(this)
    }

    /** SetDialogue: bind a script (possibly none) and start it from line 0. */
    method SetDialogue(newDialogue: Option<DialogueData>)
      requires Valid() && !isTyping
      modifies this
      ensures Valid()
      ensures currentDialogue == newDialogue
      ensures newDialogue.None? || |newDialogue.value.dialogueLines| == 0 ==>
                currentLineIndex == 0 && !isTyping &&
                currentCharacter == old(currentCharacter) && dialogueText == old(dialogueText) &&
                audioLog == old(audioLog) && speakerChanges == old(speakerChanges)
      ensures newDialogue.Some? && |newDialogue.value.dialogueLines| > 0 ==> ShowedLine(0)
    {
      currentDialogue := newDialogue;
      currentLineIndex := 0;
      StartDialogue();
    }

    /** StartDialogue: the empty-script guard in front of DisplayCurrentLine. */
    method StartDialogue()
      requires Valid() && !isTyping
      modifies this
      ensures Valid()
      ensures StartedDialogue()
      ensures currentDialogue == old(currentDialogue)
    {
      if currentDialogue.None? || |currentDialogue.value.dialogueLines| == 0 {
        return;
      }
      var fault := DisplayCurrentLine();
    }

    /** DisplayCurrentLine: past the end, a looping script wraps to line 0 and
        any other script does nothing; then the line's speaker becomes the
        current character and, when there is one, typing starts. */
    method DisplayCurrentLine() returns (fault: Option<Fault>)
      requires Valid() && !isTyping
      modifies this
      ensures Valid()
      ensures currentDialogue == old(currentDialogue)
      ensures old(currentDialogue).None? ==> fault == Some(NullDialogue) && unchanged(this)
      ensures old(currentDialogue).Some? ==>
                var d := old(currentDialogue).value;
                if old(currentLineIndex) < |d.dialogueLines| then
                  fault == None && ShowedLine(old(currentLineIndex))
                else if !d.loopDialogue then
                  fault == None && unchanged(this)
                else if |d.dialogueLines| > 0 then
                  fault == None && ShowedLine(0)
                else
                  fault == Some(IndexOutOfRange) && currentLineIndex == 0 && OnlyIndexChanged()
    {
      if currentDialogue.None? {
        return Some(NullDialogue);
      }
      var lines := currentDialogue.value.dialogueLines;
      if currentLineIndex >= |lines| {
        if currentDialogue.value.loopDialogue {
          currentLineIndex := 0;
        } else {
          return None;
        }
      }
      if currentLineIndex >= |lines| {
        return Some(IndexOutOfRange);
      }
      var line := lines[currentLineIndex];
      currentCharacter := line.speaker;
      fault := None;
      if currentCharacter.Some? {
        speakerChanges := speakerChanges + [currentCharacter.value];
        var speed := TypingSpeed(line, currentCharacter.value, defaultTypingSpeed);
        TypeText(line.message, speed);
      }
    }

    /** NextDialogue: move to the following line and show it. */
    method NextDialogue() returns (fault: Option<Fault>)
      requires Valid() && !isTyping
      modifies this
      ensures Valid()
      ensures Advanced(fault)
    {
      currentLineIndex := currentLineIndex + 1;
      fault := DisplayCurrentLine();
    }

    /** What NextDialogue does: the index goes up by one; the next line is
        shown if there is one; past the end a looping script shows line 0, and
        any other script shows nothing, however often this is repeated. */
    twostate predicate Advanced(new fault: Option<Fault>)
      reads this
    {
      var next := old(currentLineIndex) + 1;
      && currentDialogue == old(currentDialogue)
      && (old(currentDialogue).None? ==>
            fault == Some(NullDialogue) && currentLineIndex == next && OnlyIndexChanged())
      && (old(currentDialogue).Some? ==>
            var d := old(currentDialogue).value;
            if next < |d.dialogueLines| then
              fault == None && ShowedLine(next)
            else if !d.loopDialogue then
              fault == None && currentLineIndex == next && OnlyIndexChanged()
            else if |d.dialogueLines| > 0 then
              fault == None && ShowedLine(0)
            else
              fault == Some(IndexOutOfRange) && currentLineIndex == 0 && OnlyIndexChanged())
    }

    /** CompleteCurrentLine: show the whole current line at once and stop typing. */
    method CompleteCurrentLine()
      requires Valid() && isTyping
      modifies this
      ensures Valid() && !isTyping
      ensures dialogueText == old(currentDialogue.value.dialogueLines[currentLineIndex].message)
      ensures dialogueText == typingMessage
      ensures currentLineIndex == old(currentLineIndex) && OnlyTypingStopped()
    {
      isTyping := false;
      var line := currentDialogue.value.dialogueLines[currentLineIndex];
      dialogueText := line.message;
    }

    /** Only isTyping and the displayed text may have changed. */
    twostate predicate OnlyTypingStopped()
      reads this
    {
      && currentDialogue == old(currentDialogue)
      && currentCharacter == old(currentCharacter)
      && typingMessage == old(typingMessage)
      && typingSpeed == old(typingSpeed)
      && audioLog == old(audioLog)
      && speakerChanges == old(speakerChanges)
    }

    /** The Space key in Update: while typing, stop the coroutine and complete
        the line; otherwise go to the next line. */
    method PressSpace() returns (fault: Option<Fault>)
      requires Valid()
      modifies this
      ensures Valid()
      ensures old(isTyping) ==>
                && fault == None && !isTyping
                && currentLineIndex == old(currentLineIndex)
                && dialogueText == old(currentDialogue.value.dialogueLines[currentLineIndex].message)
                && OnlyTypingStopped()
      ensures !old(isTyping) ==> Advanced(fault)
    {
      if isTyping {
        // StopAllCoroutines: with isTyping cleared, no Tick resumes the reveal.
        CompleteCurrentLine();
        fault := None;
      } else {
        fault := NextDialogue();
      }
    }

    /** The start of the TypeText coroutine, up to its first wait: set
        isTyping, clear the text, show the first character and play its sound.
        A message with no characters ends at once. */
    method TypeText(message: string, speed: real)
      requires currentLineIndex >= 0
      requires currentDialogue.Some? && currentLineIndex < |currentDialogue.value.dialogueLines|
      requires message == currentDialogue.value.dialogueLines[currentLineIndex].message
      requires currentCharacter == currentDialogue.value.dialogueLines[currentLineIndex].speaker
      requires currentCharacter.Some?
      modifies this
      ensures Valid()
      ensures BeganTyping(message, speed)
      ensures currentDialogue == old(currentDialogue) && currentLineIndex == old(currentLineIndex)
      ensures currentCharacter == old(currentCharacter) && speakerChanges == old(speakerChanges)
    {
      isTyping := true;
      dialogueText := "";
      typingMessage := message;
      typingSpeed := speed;
      revealed := 0;
      lineAudioStart := |audioLog|;
      if message == [] {
        isTyping := false;
        return;
      }
      dialogueText := dialogueText + [message[0]];
      PlayCharacterSound(message[0]);
      revealed := 1;
      assert message[..1] == [message[0]];
      assert audioLog[lineAudioStart..] == SoundEvents(tables, punctuation, currentCharacter, message[0]);
    }

    /** One typing interval elapses: the coroutine resumes after its wait and
        shows the next character with its sound, or, when the whole message is
        already shown, ends and clears isTyping. Without a running reveal
        nothing happens. */
    method Tick()
      requires Valid()
      modifies this
      ensures Valid()
      ensures !old(isTyping) ==> unchanged(this)
      ensures old(isTyping) && old(revealed) < |typingMessage| ==>
                && isTyping && revealed == old(revealed) + 1
                && dialogueText == old(dialogueText) + [typingMessage[old(revealed)]]
                && audioLog == old(audioLog) + SoundEvents(tables, punctuation, currentCharacter, typingMessage[old(revealed)])
      ensures old(isTyping) && old(revealed) == |typingMessage| ==>
                !isTyping && revealed == old(revealed) && dialogueText == typingMessage && audioLog == old(audioLog)
      ensures SameReveal()
    {
      if !isTyping {
        return;
      }
      if revealed < |typingMessage| {
        var c := typingMessage[revealed];
        ghost var before := typingMessage[..revealed];
        dialogueText := dialogueText + [c];
        PlayCharacterSound(c);
        revealed := revealed + 1;
        assert typingMessage[..revealed] == before + [c];
        TypingAudioSnoc(tables, punctuation, currentCharacter, before, c);
        DropAppend(old(audioLog), SoundEvents(tables, punctuation, currentCharacter, c), lineAudioStart);
      } else {
        isTyping := false;
      }
    }

    /** The TypeText loop left to run to its end with no key pressed: the
        whole message is shown, typing has stopped, and the audio received one
        sound decision per remaining character. */
    method FinishTyping()
      requires Valid() && isTyping
      modifies this
      ensures Valid() && !isTyping
      ensures SameReveal()
      ensures dialogueText == old(currentDialogue.value.dialogueLines[currentLineIndex].message)
      ensures audioLog == old(audioLog) + TypingAudio(tables, punctuation, currentCharacter, typingMessage[old(revealed)..])
    {
      ghost var start, log := revealed, audioLog;
      while isTyping
        invariant Valid()
        invariant SameReveal()
        invariant start <= revealed <= |typingMessage|
        invariant !isTyping ==> revealed == |typingMessage| && dialogueText == typingMessage
        invariant audioLog == log + TypingAudio(tables, punctuation, currentCharacter, typingMessage[start..revealed])
        decreases isTyping, |typingMessage| - revealed
      {
        TickFrom(start, log);
      }
      assert typingMessage[start..revealed] == typingMessage[start..];
    }

    /** One interval of FinishTyping's loop: the audio since `start` stays the
        audio of the characters revealed since `start`. */
    method TickFrom(ghost start: nat, ghost log: seq<AudioEvent>)
      requires Valid() && isTyping && start <= revealed
      requires audioLog == log + TypingAudio(tables, punctuation, currentCharacter, typingMessage[start..revealed])
      modifies this
      ensures Valid() && SameReveal()
      ensures start <= revealed <= |typingMessage|
      ensures !isTyping ==> revealed == |typingMessage| && dialogueText == typingMessage
      ensures isTyping ==> revealed == old(revealed) + 1
      ensures audioLog == log + TypingAudio(tables, punctuation, currentCharacter, typingMessage[start..revealed])
    {
      ghost var r := revealed;
      Tick();
      if r < revealed {
        TypingAudioStep(tables, punctuation, currentCharacter, typingMessage, start, r, log);
      }
    }

    /** PlayCharacterSound: with a current character, stop the audio and play
        the character's clip if it has one. */
    method PlayCharacterSound(character: char)
      modifies this`audioLog
      ensures audioLog == old(audioLog) + SoundEvents(tables, punctuation, currentCharacter, character)
    {
      if currentCharacter.None? {
        return;
      }
      audioLog := audioLog + [Stop];
      if tables.isLetter(character) || tables.isDigit(character) {
        var soundToPlay := currentCharacter.value.SoundFor(VowelOf(tables, character));
        if soundToPlay.Some? {
          audioLog := audioLog + [Play(soundToPlay.value)];
        }
      } else if tables.isPunctuation(character) {
        var punctuationClip := punctuation.SoundFor(PunctuationClass(character));
        if punctuationClip.Some? {
          audioLog := audioLog + [Play(punctuationClip.value)];
        }
      }
    }
  }
}

/** A client of the manager: a one-line script "Hi!" that does not loop,
    typed out and then advanced past its end, twice. */
module DialogueScenario {
  import opened Wrappers
  import opened Unicode
  import opened CharacterSounds
  import opened Dialogue

  /** The letters of "Hi!" under any tables that give .NET's answers: 'H'
      is a consonant and plays the U clip, 'i' plays the I clip. */
  lemma HiSounds(t: CharTables, speaker: Speaker, bank: PunctuationBank)
    requires WellFormed(t)
    requires speaker.uSound == Some(Clip(5)) && speaker.iSound == Some(Clip(3))
    ensures TypingAudio(t, bank, Some(speaker), "H") == [Stop, Play(Clip(5))]
    ensures SoundEvents(t, bank, Some(speaker), 'i') == [Stop, Play(Clip(3))]
  {
  }

  /** The mark of "Hi!": '!' plays the exclamation clip. */
  lemma ExclamationSound(t: CharTables, speaker: Speaker, bank: PunctuationBank)
    requires WellFormed(t)
    requires bank.exclamationSound == Some(Clip(12))
    ensures SoundEvents(t, bank, Some(speaker), '!') == [Stop, Play(Clip(12))]
  {
  }

  /** A non-looping script with the one line "Hi!": bound, typed out over
      three intervals, then advanced past its end twice. */
  method HiScenario()
  {
    var speaker := Speaker("Tom", Some(Clip(1)), Some(Clip(2)), Some(Clip(3)), Some(Clip(4)), Some(Clip(5)), None, 0.1);
    var bank := PunctuationBank(Some(Clip(10)), Some(Clip(11)), Some(Clip(12)), Some(Clip(13)));
    var m := new DialogueManager(AsciiHangulTables(), bank, 0.15, None);
    var line := DialogueLine(Some(speaker), "Hi!", false);
    BindHi(m, line, speaker, bank);
    TypeHi(m, speaker, bank);
    assert m.audioLog == [Stop, Play(Clip(5)), Stop, Play(Clip(3)), Stop, Play(Clip(12))];
    AdvancePastEnd(m, line);
  }

  /** Binding the script shows line 0 at once: the speaker is announced, the
      interval is the speaker's own, and 'H' is out with its blip. */
  method BindHi(m: DialogueManager, line: DialogueLine, speaker: Speaker, bank: PunctuationBank)
    requires m.Valid() && !m.isTyping && m.tables == AsciiHangulTables() && m.punctuation == bank
    requires m.audioLog == [] && m.speakerChanges == []
    requires line == DialogueLine(Some(speaker), "Hi!", false) && speaker.typingSpeed == 0.1
    requires speaker.uSound == Some(Clip(5)) && speaker.iSound == Some(Clip(3))
    modifies m
    ensures m.Valid() && m.isTyping && m.currentDialogue == Some(DialogueData([line], false))
    ensures m.currentLineIndex == 0 && m.typingMessage == "Hi!" && m.revealed == 1
    ensures m.currentCharacter == Some(speaker) && m.dialogueText == "H" && m.typingSpeed == 0.1
    ensures m.speakerChanges == [speaker] && m.audioLog == [Stop, Play(Clip(5))]
  {
    HiSounds(AsciiHangulTables(), speaker, bank);
    m.SetDialogue(Some(DialogueData([line], false)));
    assert "Hi!"[..1] == "H";
  }

  /** The rest of "Hi!": two intervals show 'i' and '!' with their blips, and
      one more ends the typing. */
  method TypeHi(m: DialogueManager, speaker: Speaker, bank: PunctuationBank)
    requires m.Valid() && m.isTyping && m.tables == AsciiHangulTables() && m.punctuation == bank
    requires m.typingMessage == "Hi!" && m.revealed == 1 && m.currentCharacter == Some(speaker)
    requires speaker.uSound == Some(Clip(5)) && speaker.iSound == Some(Clip(3))
    requires bank.exclamationSound == Some(Clip(12))
    modifies m
    ensures m.Valid() && !m.isTyping && m.dialogueText == "Hi!"
    ensures m.audioLog == old(m.audioLog) + [Stop, Play(Clip(3)), Stop, Play(Clip(12))]
    ensures m.currentDialogue == old(m.currentDialogue) && m.currentLineIndex == old(m.currentLineIndex)
  {
    HiSounds(AsciiHangulTables(), speaker, bank);
    ExclamationSound(AsciiHangulTables(), speaker, bank);
    m.Tick();
    m.Tick();
    assert m.dialogueText == "Hi!" && m.isTyping;
    m.Tick();
  }

  /** Past the end of a script that does not loop, Space only moves the index
      on: nothing is shown, typed or played, on this and the next press. */
  method AdvancePastEnd(m: DialogueManager, line: DialogueLine)
    requires m.Valid() && !m.isTyping
    requires m.currentDialogue == Some(DialogueData([line], false)) && m.currentLineIndex == 0
    modifies m
  {
    ghost var log, text := m.audioLog, m.dialogueText;
    var fault := m.PressSpace();
    assert fault == None && m.currentLineIndex == 1 && m.dialogueText == text && !m.isTyping;
    fault := m.PressSpace();
    assert fault == None && m.currentLineIndex == 2 && m.dialogueText == text && !m.isTyping;
    assert m.audioLog == log;
  }
}
