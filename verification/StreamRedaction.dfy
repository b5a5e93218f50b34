/** Streaming replacement of known secret values (vericcl/execution/security.py, StreamRedactor).

    `Redact` is the meaning of a whole text: scan from the left, replace the first listed secret that
    starts here, otherwise copy one byte.  `FeedResult` is what one call to `feed` does with the bytes
    it holds.  The class method works as the source does, copying runs of bytes that cannot start a
    secret, and is proved equal to `FeedResult`. */
module StreamRedaction {
  import opened Basics

  newtype byte = x: int | 0 <= x < 256

  type Bytes = seq<byte>

  /** The bytes of "[REDACTED]". */
  const REDACTED: Bytes := [91, 82, 69, 68, 65, 67, 84, 69, 68, 93]

  predicate NonEmptySecrets(secrets: seq<Bytes>) {
    forall k :: 0 <= k < |secrets| ==> secrets[k] != []
  }

  /** The byte begins some secret. */
  predicate StartsSome(secrets: seq<Bytes>, b: byte) {
    exists k :: 0 <= k < |secrets| && secrets[k] != [] && secrets[k][0] == b
  }

  /** Index of the first secret at or after `from` that the text starts with. */
  function FirstMatch(secrets: seq<Bytes>, text: Bytes, from: nat := 0): (r: Option<nat>)
    requires from <= |secrets|
    ensures r.None? ==> forall k :: from <= k < |secrets| ==> !(secrets[k] <= text)
    ensures r.Some? ==> from <= r.value < |secrets| && secrets[r.value] <= text
                        && forall k :: from <= k < r.value ==> !(secrets[k] <= text)
    decreases |secrets| - from
  {
    if from == |secrets| then None
    else if secrets[from] <= text then Some(from)
    else FirstMatch(secrets, text, from + 1)
  }

  /** Some secret continues the held text. */
  predicate Partial(secrets: seq<Bytes>, text: Bytes) {
    exists k :: 0 <= k < |secrets| && text <= secrets[k]
  }

  /** The held text may still grow into a secret, and none matches it yet. */
  predicate MustWait(secrets: seq<Bytes>, text: Bytes) {
    FirstMatch(secrets, text).None? && Partial(secrets, text)
  }

  /** One scanning step: what it emits and how many bytes it consumes. */
  function Step(secrets: seq<Bytes>, text: Bytes): (r: (Bytes, nat))
    requires NonEmptySecrets(secrets) && text != []
    ensures 1 <= r.1 <= |text| && r.0 != []
  {
    match FirstMatch(secrets, text)
    case Some(k) => (REDACTED, |secrets[k]|)
    case None => ([text[0]], 1)
  }

  /** Leftmost replacement over a complete text. */
  function Redact(secrets: seq<Bytes>, text: Bytes): Bytes
    requires NonEmptySecrets(secrets)
    decreases |text|
  {
    if text == [] then []
    else
      var (out, n) := Step(secrets, text);
      out + Redact(secrets, text[n..])
  }

  /** Output and held-back bytes of one feed over `text`, the earlier held bytes followed by the new ones. */
  function FeedResult(secrets: seq<Bytes>, text: Bytes, final: bool): (r: (Bytes, Bytes))
    requires NonEmptySecrets(secrets)
    decreases |text|
  {
    if text == [] then ([], [])
    else if !final && MustWait(secrets, text) then ([], text)
    else
      var (out, n) := Step(secrets, text);
      var (more, held) := FeedResult(secrets, text[n..], final);
      (out + more, held)
  }

  /** Feed every chunk, then the last one with final set; the concatenated output. */
  function Stream(secrets: seq<Bytes>, held: Bytes, chunks: seq<Bytes>, last: Bytes): Bytes
    requires NonEmptySecrets(secrets)
    decreases |chunks|
  {
    if chunks == [] then FeedResult(secrets, held + last, true).0
    else
      var (out, rest) := FeedResult(secrets, held + chunks[0], false);
      out + Stream(secrets, rest, chunks[1..], last)
  }

  function Flatten(chunks: seq<Bytes>): Bytes {
    if chunks == [] then [] else chunks[0] + Flatten(chunks[1..])
  }

  /** `secrets[j]` can ever be selected: no earlier secret is a prefix of it. */
  predicate Selectable(secrets: seq<Bytes>, j: nat)
    requires j < |secrets|
  {
    forall k :: 0 <= k < j ==> !(secrets[k] <= secrets[j])
  }

  /** No selectable secret is properly extended from a secret listed after it. */
  predicate ChunkSafe(secrets: seq<Bytes>) {
    forall i, j :: 0 <= j < i < |secrets| && Selectable(secrets, j) ==> !(secrets[i] < secrets[j])
  }

  // ---------------------------------------------------------------- the meaning of one feed

  /** A final feed is the leftmost replacement and holds nothing back. */
  lemma {:induction false} FinalFeedIsRedact(secrets: seq<Bytes>, text: Bytes)
    requires NonEmptySecrets(secrets)
    ensures FeedResult(secrets, text, true) == (Redact(secrets, text), [])
    decreases |text|
  {
    if text != [] {
      FinalFeedIsRedact(secrets, text[Step(secrets, text).1..]);
    }
  }

  /** What a non-final feed holds back is empty or a proper prefix of a secret. */
  lemma {:induction false} HeldIsProperPrefix(secrets: seq<Bytes>, text: Bytes)
    requires NonEmptySecrets(secrets)
    ensures var held := FeedResult(secrets, text, false).1;
            held == [] || exists k :: 0 <= k < |secrets| && held < secrets[k]
    decreases |text|
  {
    if text != [] {
      if MustWait(secrets, text) {
        var k :| 0 <= k < |secrets| && text <= secrets[k];
        assert text != secrets[k];
        assert text < secrets[k];
      } else {
        HeldIsProperPrefix(secrets, text[Step(secrets, text).1..]);
      }
    }
  }

  lemma PrefixesNest(a: Bytes, b: Bytes, t: Bytes)
    requires a <= t && b <= t
    ensures a <= b || b < a
  {
    assert a == t[..|a|] && b == t[..|b|];
  }

  /** Under `ChunkSafe`, more input never changes a match already taken. */
  lemma MatchIsStable(secrets: seq<Bytes>, text: Bytes, more: Bytes)
    requires NonEmptySecrets(secrets) && ChunkSafe(secrets)
    requires FirstMatch(secrets, text).Some?
    ensures FirstMatch(secrets, text + more) == FirstMatch(secrets, text)
  {
    var whole := text + more;
    var m := FirstMatch(secrets, text).value;
    assert secrets[m] <= whole;
    var k := FirstMatch(secrets, whole).value;
    if k != m {
      PrefixesNest(secrets[k], text, whole);
      PrefixesNest(secrets[m], secrets[k], whole);
      FirstIsSelectable(secrets, whole);
      assert false;
    }
  }

  lemma FirstIsSelectable(secrets: seq<Bytes>, text: Bytes)
    requires FirstMatch(secrets, text).Some?
    ensures Selectable(secrets, FirstMatch(secrets, text).value)
  {
    var k := FirstMatch(secrets, text).value;
    forall e | 0 <= e < k ensures !(secrets[e] <= secrets[k]) {
      assert !(secrets[e] <= text);
    }
  }

  /** A text that no secret matches or continues stays unmatched at its head. */
  lemma NoMatchIsStable(secrets: seq<Bytes>, text: Bytes, more: Bytes)
    requires FirstMatch(secrets, text).None? && !Partial(secrets, text)
    ensures FirstMatch(secrets, text + more).None?
  {
    if FirstMatch(secrets, text + more).Some? {
      var k := FirstMatch(secrets, text + more).value;
      PrefixesNest(secrets[k], text, text + more);
    }
  }

  lemma StepIsStable(secrets: seq<Bytes>, text: Bytes, more: Bytes)
    requires NonEmptySecrets(secrets) && ChunkSafe(secrets)
    requires text != [] && !MustWait(secrets, text)
    ensures Step(secrets, text + more) == Step(secrets, text)
  {
    if FirstMatch(secrets, text).Some? {
      MatchIsStable(secrets, text, more);
    } else {
      NoMatchIsStable(secrets, text, more);
    }
  }

  /** Output emitted early is exactly the part of the batch output that the held bytes do not decide. */
  lemma {:induction false} FeedThenMore(secrets: seq<Bytes>, text: Bytes, more: Bytes)
    requires NonEmptySecrets(secrets) && ChunkSafe(secrets)
    ensures Redact(secrets, text + more)
            == FeedResult(secrets, text, false).0 + Redact(secrets, FeedResult(secrets, text, false).1 + more)
    decreases |text|
  {
    if text == [] || MustWait(secrets, text) {
      assert FeedResult(secrets, text, false) == ([], text);
      assert [] + Redact(secrets, text + more) == Redact(secrets, text + more);
    } else {
      StepIsStable(secrets, text, more);
      var (out, n) := Step(secrets, text);
      var (fed, held) := FeedResult(secrets, text[n..], false);
      DropHead(text, more, n);
      FeedThenMore(secrets, text[n..], more);
      Regroup(out, fed, Redact(secrets, held + more));
    }
  }

  lemma DropHead(text: Bytes, more: Bytes, n: nat)
    requires n <= |text|
    ensures (text + more)[n..] == text[n..] + more
  {
  }

  lemma Regroup(a: Bytes, b: Bytes, c: Bytes)
    ensures (a + b) + c == a + (b + c)
  {
  }

  lemma {:induction false} StreamIsRedact(secrets: seq<Bytes>, held: Bytes, chunks: seq<Bytes>, last: Bytes)
    requires NonEmptySecrets(secrets) && ChunkSafe(secrets)
    ensures Stream(secrets, held, chunks, last) == Redact(secrets, held + (Flatten(chunks) + last))
    decreases |chunks|
  {
    if chunks == [] {
      FinalFeedIsRedact(secrets, held + last);
      assert Flatten(chunks) + last == last;
    } else {
      var text := held + chunks[0];
      var more := Flatten(chunks[1..]) + last;
      var rest := FeedResult(secrets, text, false).1;
      FeedThenMore(secrets, text, more);
      StreamIsRedact(secrets, rest, chunks[1..], last);
      Regroup(held, chunks[0], more);
      Regroup(chunks[0], Flatten(chunks[1..]), last);
    }
  }

  lemma RedactNonEmpty(secrets: seq<Bytes>, text: Bytes)
    requires NonEmptySecrets(secrets) && text != []
    ensures Redact(secrets, text) != []
  {
  }

  /** A pair that breaks `ChunkSafe` is split by cutting the longer secret where the shorter one ends. */
  lemma UnsafePairSplits(secrets: seq<Bytes>, i: nat, j: nat)
    requires NonEmptySecrets(secrets)
    requires j < i < |secrets| && Selectable(secrets, j) && secrets[i] < secrets[j]
    ensures Stream(secrets, [], [secrets[i]], secrets[j][|secrets[i]|..]) != Redact(secrets, secrets[j])
  {
    var s, t := secrets[i], secrets[j];
    assert secrets[i] <= s;
    var m := FirstMatch(secrets, s).value;
    assert secrets[m] <= t;
    var cut := t[|s|..];
    var (out, held) := FeedResult(secrets, s, false);
    assert REDACTED <= out;
    assert [s][1..] == [] && [] + s == s;
    assert Stream(secrets, [], [s], cut) == out + FeedResult(secrets, held + cut, true).0;
    FinalFeedIsRedact(secrets, held + cut);
    RedactNonEmpty(secrets, held + cut);
    var k := FirstMatch(secrets, t).value;
    assert k == j by {
      assert !(k < j);
    }
    assert t[|t|..] == [];
    assert Redact(secrets, t) == REDACTED + [];
  }

  /** Every chunking of every text is redacted as the whole text is, exactly when `ChunkSafe` holds. */
  lemma OnlineEqualsBatch(secrets: seq<Bytes>)
    requires NonEmptySecrets(secrets)
    ensures ChunkSafe(secrets) <==>
            forall chunks: seq<Bytes>, last: Bytes ::
              Stream(secrets, [], chunks, last) == Redact(secrets, Flatten(chunks) + last)
  {
    if ChunkSafe(secrets) {
      forall chunks: seq<Bytes>, last: Bytes
        ensures Stream(secrets, [], chunks, last) == Redact(secrets, Flatten(chunks) + last)
      {
        StreamIsRedact(secrets, [], chunks, last);
        assert [] + (Flatten(chunks) + last) == Flatten(chunks) + last;
      }
    } else {
      var i, j :| 0 <= j < i < |secrets| && Selectable(secrets, j) && secrets[i] < secrets[j];
      UnsafePairSplits(secrets, i, j);
      WholeFromCut(secrets[i], secrets[j]);
    }
  }

  lemma WholeFromCut(s: Bytes, t: Bytes)
    requires s <= t
    ensures Flatten([s]) + t[|s|..] == t
  {
    assert [s][1..] == [];
    assert Flatten([s]) == s + [] == s;
  }

  /** Longest-first ordering, which the redactor uses, is not chunk safe: "abc" before "ab". */
  lemma LongestFirstCanSplit()
    ensures var secrets: seq<Bytes> := [[97, 98, 99], [97, 98]];
            NonEmptySecrets(secrets) && !ChunkSafe(secrets)
            && Stream(secrets, [], [[97, 98]], [99]) != Redact(secrets, [97, 98, 99])
  {
    var secrets: seq<Bytes> := [[97, 98, 99], [97, 98]];
    assert Selectable(secrets, 0);
    assert secrets[1] < secrets[0];
    UnsafePairSplits(secrets, 1, 0);
    assert secrets[0][2..] == [99];
  }

  // ---------------------------------------------------------------- the stateful redactor

  /** Bytes up to `count` cannot start a secret, so copying them at once is the byte-by-byte scan. */
  lemma {:induction false} CopyRun(secrets: seq<Bytes>, text: Bytes, count: nat, final: bool)
    requires NonEmptySecrets(secrets)
    requires count <= |text|
    requires forall p :: 0 <= p < count ==> !StartsSome(secrets, text[p])
    ensures FeedResult(secrets, text, final).0 == text[..count] + FeedResult(secrets, text[count..], final).0
    ensures FeedResult(secrets, text, final).1 == FeedResult(secrets, text[count..], final).1
    decreases |text|, 1
  {
    if count == 0 {
      assert text[0..] == text;
      assert text[..0] + FeedResult(secrets, text, final).0 == FeedResult(secrets, text, final).0;
    } else {
      NoSecretHere(secrets, text);
      CopyHeadAndRun(secrets, text, count, final);
    }
  }

  /** The head byte is copied because nothing matches or continues it; the rest of the run follows. */
  lemma {:induction false} CopyHeadAndRun(secrets: seq<Bytes>, text: Bytes, count: nat, final: bool)
    requires NonEmptySecrets(secrets) && 1 <= count <= |text|
    requires FirstMatch(secrets, text).None? && (final || !Partial(secrets, text))
    requires forall p :: 1 <= p < count ==> !StartsSome(secrets, text[p])
    ensures FeedResult(secrets, text, final).0 == text[..count] + FeedResult(secrets, text[count..], final).0
    ensures FeedResult(secrets, text, final).1 == FeedResult(secrets, text[count..], final).1
    decreases |text|, 0
  {
    hide *;
    OneByteCopied(secrets, text, final);
    assert forall p :: 0 <= p < count - 1 ==> text[1..][p] == text[p + 1];
    CopyRun(secrets, text[1..], count - 1, final);
    SplitHead(text, count);
    Regroup([text[0]], text[1..][..count - 1], FeedResult(secrets, text[count..], final).0);
  }

  lemma OneByteCopied(secrets: seq<Bytes>, text: Bytes, final: bool)
    requires NonEmptySecrets(secrets) && text != []
    requires FirstMatch(secrets, text).None? && (final || !Partial(secrets, text))
    ensures FeedResult(secrets, text, final).0 == [text[0]] + FeedResult(secrets, text[1..], final).0
    ensures FeedResult(secrets, text, final).1 == FeedResult(secrets, text[1..], final).1
  {
  }

  lemma SplitHead(text: Bytes, count: nat)
    requires 1 <= count <= |text|
    ensures text[1..][count - 1..] == text[count..]
    ensures [text[0]] + text[1..][..count - 1] == text[..count]
  {
  }

  lemma NoSecretHere(secrets: seq<Bytes>, text: Bytes)
    requires NonEmptySecrets(secrets) && text != [] && !StartsSome(secrets, text[0])
    ensures FirstMatch(secrets, text).None? && !Partial(secrets, text)
  {
    forall k | 0 <= k < |secrets| ensures !(secrets[k] <= text) && !(text <= secrets[k]) {
      assert secrets[k][0] != text[0];
    }
  }

  /** Position of `b` at or after `from`, or -1. */
  method Find(text: Bytes, b: byte, from: nat) returns (position: int)
    ensures position == -1 || from <= position < |text|
    ensures position == -1 ==> forall p :: from <= p < |text| ==> text[p] != b
    ensures position >= 0 ==> text[position] == b && forall p :: from <= p < position ==> text[p] != b
  {
    var i := from;
    while i < |text|
      invariant from <= i
      invariant forall p :: from <= p < i && p < |text| ==> text[p] != b
    {
      if text[i] == b {
        return i;
      }
      i := i + 1;
    }
    return -1;
  }

  /** The length of the run to copy: up to the next byte after the head that starts some secret. */
  method CopyLength(secrets: seq<Bytes>, text: Bytes) returns (count: nat)
    requires NonEmptySecrets(secrets) && text != []
    ensures 1 <= count <= |text|
    ensures forall p :: 1 <= p < count ==> !StartsSome(secrets, text[p])
    ensures count < |text| ==> StartsSome(secrets, text[count])
  {
    count := |text|;
    for k := 0 to |secrets|
      invariant 1 <= count <= |text|
      invariant forall p, e {:trigger text[p], secrets[e]} :: 1 <= p < count && 0 <= e < k ==> text[p] != secrets[e][0]
      invariant count < |text| ==> StartsSome(secrets, text[count])
    {
      var position := Find(text, secrets[k][0], 1);
      if 0 <= position < count {
        count := position;
      }
    }
  }

  class StreamRedactor {
    const secrets: seq<Bytes>
    var pending: Bytes

    ghost predicate Valid()
      reads this
    {
      NonEmptySecrets(secrets)
    }

    constructor (secrets: seq<Bytes>)
      requires NonEmptySecrets(secrets)
      ensures Valid() && this.secrets == secrets && pending == []
    {
      this.secrets := secrets;
      pending := [];
    }

    method Feed(data: Bytes, final: bool) returns (output: Bytes)
      requires Valid()
      modifies this`pending
      ensures Valid()
      ensures (output, pending) == FeedResult(secrets, old(pending) + data, final)
      ensures final ==> output == Redact(secrets, old(pending) + data) && pending == []
      ensures !final && ChunkSafe(secrets) ==>
                forall more :: Redact(secrets, old(pending) + data + more) == output + Redact(secrets, pending + more)
    {
      pending := pending + data;
      output := [];
      ghost var text := pending;
      assert output + FeedResult(secrets, text, final).0 == FeedResult(secrets, text, final).0;
      while pending != []
        invariant FeedResult(secrets, text, final).0 == output + FeedResult(secrets, pending, final).0
        invariant FeedResult(secrets, text, final).1 == FeedResult(secrets, pending, final).1
        decreases |pending|
      {
        var found := FirstMatch(secrets, pending);
        ghost var before := output;
        if found.Some? {
          output := output + REDACTED;
          pending := pending[|secrets[found.value]|..];
          Regroup(before, REDACTED, FeedResult(secrets, pending, final).0);
        } else if !final && Partial(secrets, pending) {
          break;
        } else {
          var count := CopyLength(secrets, pending);
          CopyHeadAndRun(secrets, pending, count, final);
          output := output + pending[..count];
          Regroup(before, pending[..count], FeedResult(secrets, pending[count..], final).0);
          pending := pending[count..];
        }
      }
      assert FeedResult(secrets, pending, final) == ([], pending);
      assert output + [] == output;
      if final {
        FinalFeedIsRedact(secrets, text);
      }
      if !final && ChunkSafe(secrets) {
        forall more ensures Redact(secrets, text + more) == output + Redact(secrets, pending + more) {
          FeedThenMore(secrets, text, more);
        }
      }
    }
  }
}
