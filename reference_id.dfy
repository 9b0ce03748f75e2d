/**
 * `generateReferenceId`: eight characters drawn from `[A-Z0-9]`. The random
 * draws are an input: `picks[k]` is the index `Math.floor(Math.random() * 36)`
 * chosen for position `k`.
 */
module ReferenceIds {

  const Alphabet: string := "ABCDEFGHIJKLMNOPQRSTUVWXYZ0123456789"
  const IdLength: nat := 8

  predicate IsReferenceChar(c: char)
  {
    'A' <= c <= 'Z' || '0' <= c <= '9'
  }

  /** The shape of every reference id: `[A-Z0-9]{8}`. */
  predicate IsReferenceId(s: string)
  {
    |s| == IdLength && forall i :: 0 <= i < |s| ==> IsReferenceChar(s[i])
  }

  /** Draws that `Math.floor(Math.random() * chars.length)` can produce. */
  predicate ValidPicks(picks: seq<nat>)
  {
    |picks| == IdLength && forall k :: 0 <= k < |picks| ==> picks[k] < |Alphabet|
  }

  /** The character at a draw, and the draw of a character. */
  function AlphabetChar(k: nat): (c: char)
    requires k < |Alphabet|
    ensures IsReferenceChar(c)
    ensures k < 26 ==> c as int == 'A' as int + k
    ensures 26 <= k ==> c as int == '0' as int + k - 26
  {
    Alphabet[k]
  }

  function PickOf(c: char): (k: nat)
    requires IsReferenceChar(c)
    ensures k < |Alphabet| && AlphabetChar(k) == c
  {
    if 'A' <= c <= 'Z' then c as int - 'A' as int else 26 + c as int - '0' as int
  }

  /** The id that a sequence of draws spells. */
  function Spell(picks: seq<nat>): (s: string)
    requires forall k :: 0 <= k < |picks| ==> picks[k] < |Alphabet|
    ensures |s| == |picks|
    ensures forall k :: 0 <= k < |picks| ==> s[k] == AlphabetChar(picks[k])
  {
    seq(|picks|, k requires 0 <= k < |picks| => AlphabetChar(picks[k]))
  }

  /** Builds the id one character at a time, as the source's `for` loop does. */
  method GenerateReferenceId(picks: seq<nat>) returns (id: string)
    requires ValidPicks(picks)
    ensures id == Spell(picks)
    ensures IsReferenceId(id)
  {
    id := "";
    for i := 0 to IdLength
      invariant |id| == i
      invariant forall k :: 0 <= k < i ==> id[k] == AlphabetChar(picks[k])
    {
      id := id + [AlphabetChar(picks[i])];
    }
  }

  /** Distinct draws give distinct ids: the alphabet has no repeated character. */
  lemma {:induction false} SpellInjective(p: seq<nat>, q: seq<nat>)
    requires ValidPicks(p) && ValidPicks(q)
    requires Spell(p) == Spell(q)
    ensures p == q
  {
    forall k | 0 <= k < IdLength
      ensures p[k] == q[k]
    {
      assert AlphabetChar(p[k]) == Spell(p)[k] == Spell(q)[k] == AlphabetChar(q[k]);
    }
  }

  /** Every `[A-Z0-9]{8}` string is the id of some draw. */
  lemma EveryReferenceIdIsSpelled(s: string)
    requires IsReferenceId(s)
    ensures exists picks :: ValidPicks(picks) && Spell(picks) == s
  {
    var picks := seq(|s|, i requires 0 <= i < |s| => PickOf(s[i]));
    assert Spell(picks) == s;
  }
}
