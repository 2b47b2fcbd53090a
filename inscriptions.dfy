/**
 * The inbound-message filter of the reconnecting client: an `"ok"` reply is
 * ignored, any other text goes to `JSON.parse`, and a `Mempool` update yields
 * one console line for each ordinal whose decoded body ends with `.bitmap`.
 *
 * `JSON.parse` and `base64ToUtf8` are not part of this model; they are passed
 * in as a `Codec`.
 */
module Inscriptions {
  import opened Wrappers

  /** One entry of `data.ordinals`: `inscription_id` and `inscription_data.body` (base64 text). */
  datatype Ordinal = Ordinal(inscriptionId: string, body: string)

  /** What `JSON.parse` yields, seen through `res?.msg_type === 'Mempool'`. */
  datatype Parsed = Mempool(ordinals: seq<Ordinal>) | Other

  /** `JSON.parse` (None when it throws) and `base64ToUtf8` (None when it yields nothing). */
  datatype Codec = Codec(parse: string -> Option<Parsed>, decode: string -> Option<string>)

  /** The exception `JSON.parse` throws out of the handler; the handler does not catch it. */
  datatype HandlerError = SyntaxError

  const Ack := "ok"
  const BitmapSuffix := ".bitmap"
  const TxBase := "https://mempool.space/tx/"

  /** `s.endsWith(suffix)`. */
  predicate EndsWith(s: string, suffix: string)
  {
    |suffix| <= |s| && s[|s| - |suffix|..] == suffix
  }

  /** The console line for one bitmap inscription. */
  function BitmapLine(text: string, inscriptionId: string): string
  {
    text + ": " + TxBase + inscriptionId
  }

  /** The ordinal's body decodes and the decoded text claims a bitmap. */
  predicate Qualifies(o: Ordinal, decode: string -> Option<string>)
  {
    decode(o.body).Some? && EndsWith(decode(o.body).value, BitmapSuffix)
  }

  /** The line a qualifying ordinal produces. */
  function LineOf(o: Ordinal, decode: string -> Option<string>): string
    requires Qualifies(o, decode)
  {
    BitmapLine(decode(o.body).value, o.inscriptionId)
  }

  /** What one iteration of the `forEach` prints. */
  function LinesOf(o: Ordinal, decode: string -> Option<string>): seq<string>
  {
    if Qualifies(o, decode) then [LineOf(o, decode)] else []
  }

  /** The lines the `forEach` over `ordinals` prints, in order. */
  function BitmapLines(ordinals: seq<Ordinal>, decode: string -> Option<string>): seq<string>
  {
    if ordinals == [] then []
    else BitmapLines(ordinals[..|ordinals| - 1], decode) + LinesOf(ordinals[|ordinals| - 1], decode)
  }

  /** The `forEach` loop itself. */
  method FilterBitmaps(ordinals: seq<Ordinal>, decode: string -> Option<string>) returns (lines: seq<string>)
    ensures lines == BitmapLines(ordinals, decode)
  {
    lines := [];
    var i := 0;
    while i < |ordinals|
      invariant 0 <= i <= |ordinals|
      invariant lines == BitmapLines(ordinals[..i], decode)
    {
      var o := ordinals[i];
      assert ordinals[..i + 1][..i] == ordinals[..i];
      var inscription := decode(o.body);
      if inscription.Some? && EndsWith(inscription.value, BitmapSuffix) {
        lines := lines + [BitmapLine(inscription.value, o.inscriptionId)];
      }
      i := i + 1;
    }
    assert ordinals[..i] == ordinals;
  }

  /**
   * The lines are exactly the qualifying ordinals' lines, in ordinal order:
   * `idx` lists, increasing, the positions of every qualifying ordinal, and
   * line `j` is the line of ordinal `idx[j]`.
   */
  lemma {:induction false} BitmapLinesExact(ordinals: seq<Ordinal>, decode: string -> Option<string>)
    returns (idx: seq<nat>)
    ensures |idx| == |BitmapLines(ordinals, decode)|
    ensures forall j :: 0 <= j < |idx| ==> idx[j] < |ordinals| && Qualifies(ordinals[idx[j]], decode)
    ensures forall j :: 0 <= j < |idx| ==> BitmapLines(ordinals, decode)[j] == LineOf(ordinals[idx[j]], decode)
    ensures forall j, k :: 0 <= j < k < |idx| ==> idx[j] < idx[k]
    ensures forall i :: 0 <= i < |ordinals| && Qualifies(ordinals[i], decode) ==> i in idx
  {
    if ordinals == [] {
      idx := [];
    } else {
      var n := |ordinals| - 1;
      var front := ordinals[..n];
      var prev := BitmapLinesExact(front, decode);
      var lines, before := BitmapLines(ordinals, decode), BitmapLines(front, decode);
      assert lines == before + LinesOf(ordinals[n], decode);
      assert forall i :: 0 <= i < n ==> ordinals[i] == front[i];
      if Qualifies(ordinals[n], decode) {
        idx := prev + [n];
        forall j | 0 <= j < |idx|
          ensures idx[j] < |ordinals| && Qualifies(ordinals[idx[j]], decode)
          ensures lines[j] == LineOf(ordinals[idx[j]], decode)
        {
          if j < |prev| {
            assert idx[j] == prev[j] && lines[j] == before[j];
          }
        }
      } else {
        idx := prev;
        assert lines == before;
      }
    }
  }

  /** A message produces at most one line per ordinal. */
  lemma {:induction false} BitmapLinesBound(ordinals: seq<Ordinal>, decode: string -> Option<string>)
    ensures |BitmapLines(ordinals, decode)| <= |ordinals|
    ensures (forall i :: 0 <= i < |ordinals| ==> !Qualifies(ordinals[i], decode)) <==> BitmapLines(ordinals, decode) == []
  {
    if ordinals != [] {
      var n := |ordinals| - 1;
      BitmapLinesBound(ordinals[..n], decode);
      assert forall i :: 0 <= i < n ==> ordinals[..n][i] == ordinals[i];
    }
  }

  /** Filtering two batches one after the other prints the lines of their concatenation. */
  lemma {:induction false} BitmapLinesAppend(a: seq<Ordinal>, b: seq<Ordinal>, decode: string -> Option<string>)
    ensures BitmapLines(a + b, decode) == BitmapLines(a, decode) + BitmapLines(b, decode)
    decreases |b|
  {
    if b == [] {
      assert a + b == a;
    } else {
      var n := |b| - 1;
      assert (a + b)[..|a + b| - 1] == a + b[..n];
      BitmapLinesAppend(a, b[..n], decode);
    }
  }

  /**
   * The `onmessage` handler's output: nothing for `"ok"` and for any other
   * message type, the bitmap lines for a `Mempool` update, and the parser's
   * exception, uncaught, for text `JSON.parse` rejects.
   */
  function HandleMessage(data: string, codec: Codec): (r: Result<seq<string>, HandlerError>)
    ensures data == Ack ==> r == Success([])
    ensures data != Ack && codec.parse(data).None? ==> r == Failure(SyntaxError)
    ensures data != Ack && codec.parse(data) == Some(Other) ==> r == Success([])
    ensures data != Ack && codec.parse(data).Some? && codec.parse(data).value.Mempool? ==>
      r == Success(BitmapLines(codec.parse(data).value.ordinals, codec.decode))
    ensures r.Success? && r.value != [] ==>
      data != Ack && codec.parse(data).Some? && codec.parse(data).value.Mempool? &&
      r.value == BitmapLines(codec.parse(data).value.ordinals, codec.decode)
  {
    if data == Ack then Success([])
    else
      match codec.parse(data)
      case None => Failure(SyntaxError)
      case Some(Mempool(ordinals)) => Success(BitmapLines(ordinals, codec.decode))
      case Some(Other) => Success([])
  }

  /** An update with one `foo.bitmap` inscription `abc` prints one line naming both. */
  lemma OneBitmapExample(data: string, body: string, codec: Codec)
    requires data != Ack
    requires codec.parse(data) == Some(Mempool([Ordinal("abc", body)]))
    requires codec.decode(body) == Some("foo.bitmap")
    ensures HandleMessage(data, codec) == Success([BitmapLine("foo.bitmap", "abc")])
  {
    var ords := [Ordinal("abc", body)];
    assert "foo.bitmap"[|"foo.bitmap"| - |BitmapSuffix|..] == BitmapSuffix;
    assert Qualifies(ords[0], codec.decode);
    assert ords[..0] == [];
    assert BitmapLines(ords, codec.decode) == [BitmapLine("foo.bitmap", "abc")];
  }
}
