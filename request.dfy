/**
 The request key of the translator (`requestCtx`) and its byte encoding
 (`asBytes`), which is the key under which translations are cached.
 Go strings are byte sequences, so every piece of text here is `Bytes`.
 */
module Request {

  newtype byte = x: int | 0 <= x < 256

  type Bytes = seq<byte>

  /** A language tag, identified by its canonical text form (what `%s` prints). */
  type Tag = Bytes

  /** The byte '-' that separates the three fields of the encoding. */
  const DASH: byte := 45

  datatype Option<+T> = None | Some(value: T)

  /** A translation request: source language, target language and the text. */
  datatype RequestKey = RequestKey(from: Tag, to: Tag, data: Bytes)

  /** The cache key of a request: `from-to-data`. */
  function AsBytes(k: RequestKey): Bytes
  {
    k.from + [DASH] + k.to + [DASH] + k.data
  }

  /** The position of the first `x` in `s`, or `|s|` when there is none. */
  function IndexOf(s: Bytes, x: byte): (i: nat)
    ensures i <= |s|
    ensures i < |s| ==> s[i] == x
    ensures forall j :: 0 <= j < i ==> s[j] != x
  {
    if s == [] then 0
    else if s[0] == x then 0
    else 1 + IndexOf(s[1..], x)
  }

  /** Reads a cache key back by splitting it at its first two dashes. */
  function ParseKey(b: Bytes): Option<RequestKey>
  {
    var i := IndexOf(b, DASH);
    if i == |b| then None
    else
      var rest := b[i + 1..];
      var j := IndexOf(rest, DASH);
      if j == |rest| then None
      else Some(RequestKey(b[..i], rest[..j], rest[j + 1..]))
  }

  /** In `a + [x] + b` with no `x` in `a`, the first `x` sits right after `a`, and splitting there gives back `a` and `b`. */
  lemma {:induction false} IndexOfAfterPrefix(a: Bytes, x: byte, b: Bytes)
    requires x !in a
    ensures var s := a + [x] + b;
      && IndexOf(s, x) == |a|
      && s[..|a|] == a && s[|a| + 1..] == b
  {
    var s := a + [x] + b;
    assert forall j :: 0 <= j < |a| ==> s[j] == a[j];
    assert s[|a|] == x;
  }

  /** With dash-free language tags the encoding is undone by `ParseKey`. */
  lemma {:induction false} ParseAsBytes(k: RequestKey)
    requires DASH !in k.from && DASH !in k.to
    ensures ParseKey(AsBytes(k)) == Some(k)
  {
    var rest := k.to + [DASH] + k.data;
    assert AsBytes(k) == k.from + [DASH] + rest;
    IndexOfAfterPrefix(k.from, DASH, rest);
    IndexOfAfterPrefix(k.to, DASH, k.data);
  }

  /** With dash-free language tags two requests share a cache key only if they are the same request. */
  lemma {:induction false} AsBytesInjective(k1: RequestKey, k2: RequestKey)
    requires DASH !in k1.from && DASH !in k1.to
    requires DASH !in k2.from && DASH !in k2.to
    ensures AsBytes(k1) == AsBytes(k2) ==> k1 == k2
  {
    ParseAsBytes(k1);
    ParseAsBytes(k2);
  }

  /**
   Language tags may contain dashes ("ja-JP"), and then two different requests
   share a cache key: translating "JP-x" from en to ja and translating "x" from
   en to ja-JP are both cached under "en-ja-JP-x".
   */
  lemma AsBytesCollision()
    ensures var en, ja, jaJP := [101, 110], [106, 97], [106, 97, 45, 74, 80];
            var k1 := RequestKey(en, ja, [74, 80, 45, 120]);
            var k2 := RequestKey(en, jaJP, [120]);
            k1 != k2 && AsBytes(k1) == AsBytes(k2)
  {
  }
}
