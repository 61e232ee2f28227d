/** Arithmetic decomposition of precomposed Hangul syllables, as given in
    section 3.12 ("Conjoining Jamo Behavior") of the Unicode Standard: every
    syllable in U+AC00..U+D7A3 is
      SBase + (LIndex * VCount + VIndex) * TCount + TIndex
    for a leading consonant LIndex < 19, a medial vowel VIndex < 21 and a
    trailing consonant TIndex < 28 (0 meaning "none"). */
module Hangul {

  const SBase: int := 0xAC00
  const LCount: int := 19
  const VCount: int := 21
  const TCount: int := 28
  const SCount: int := 11172  // LCount * VCount * TCount: size of the syllable block

  /** The range test DialogueManager.GetVowelSound makes: '가' (U+AC00) to '힣' (U+D7A3). */
  predicate IsSyllable(c: char)
  {
    '가' <= c <= '힣'
  }

  /** Position of a syllable in the block (the source's `korean - '가'`). */
  function SyllableIndex(c: char): (s: nat)
    requires IsSyllable(c)
    ensures s < SCount
    ensures c as int == SBase + s
  {
    c as int - 0xAC00
  }

  function LeadIndex(c: char): (l: nat)
    requires IsSyllable(c)
    ensures l < LCount
  {
    SyllableIndex(c) / 588
  }

  /** The medial-vowel index, computed as DialogueManager.GetKoreanVowelSound
      does: `(code % 588) / 28`. */
  function VowelIndex(c: char): (v: nat)
    requires IsSyllable(c)
    ensures v < VCount
  {
    (SyllableIndex(c) % 588) / 28
  }

  function TrailIndex(c: char): (t: nat)
    requires IsSyllable(c)
    ensures t < TCount
  {
    SyllableIndex(c) % 28
  }

  /** Canonical composition of a syllable from its three jamo indices. */
  function Compose(l: nat, v: nat, t: nat): (c: char)
    requires l < LCount && v < VCount && t < TCount
    ensures IsSyllable(c)
  {
    (0xAC00 + l * 588 + v * 28 + t) as char
  }

  /** Decomposition inverts composition: the vowel index the dialogue code
      computes is exactly the vowel the syllable was built from, whatever its
      consonants. */
  lemma {:induction false} DecomposeCompose(l: nat, v: nat, t: nat)
    requires l < LCount && v < VCount && t < TCount
    ensures LeadIndex(Compose(l, v, t)) == l
    ensures VowelIndex(Compose(l, v, t)) == v
    ensures TrailIndex(Compose(l, v, t)) == t
  {
    assert SyllableIndex(Compose(l, v, t)) == l * 588 + v * 28 + t;
  }

  /** Composition inverts decomposition: every syllable of the block is
      determined by its three indices. */
  lemma {:induction false} ComposeDecompose(c: char)
    requires IsSyllable(c)
    ensures Compose(LeadIndex(c), VowelIndex(c), TrailIndex(c)) == c
  {
  }
}
