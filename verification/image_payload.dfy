/**
 * Splitting an image payload into its base64 data and MIME type. The
 * payload is raw base64 or a data URL (`data:<type>;base64,<data>`, the
 * syntax of section 3 of RFC 2397), and both image endpoints cut it at its
 * commas; the vision endpoint also reads the type out of the header with
 * the regular expression `/:(.*?);/`.
 */
module ImagePayload {
  import opened Common
  import opened Strings

  const DefaultMimeType := "image/jpeg"

  /** The characters `.` does not match in a JavaScript regular expression. */
  predicate IsLineTerminator(c: char) {
    c == '\n' || c == '\r' || c == '\U{2028}' || c == '\U{2029}'
  }

  /** A character `(.*?);` may pass over before its `;`. */
  predicate Passable(c: char) {
    c != ';' && !IsLineTerminator(c)
  }

  predicate AllPassable(s: string) {
    forall k :: 0 <= k < |s| ==> Passable(s[k])
  }

  /** The first index at or after `j` holding a character that is not passable, or `|h|`. */
  function RunEnd(h: string, j: nat): (e: nat)
    requires j <= |h|
    ensures j <= e <= |h|
    ensures forall k :: j <= k < e ==> Passable(h[k])
    ensures e < |h| ==> !Passable(h[e])
    decreases |h| - j
  {
    if j == |h| || !Passable(h[j]) then j else RunEnd(h, j + 1)
  }

  /** `/:(.*?);/` matches with its `:` at index `k` and its `;` at index `e`. */
  predicate MatchesAt(h: string, k: int, e: int) {
    && 0 <= k < e < |h|
    && h[k] == ':' && h[e] == ';'
    && forall i :: k < i < e ==> Passable(h[i])
  }

  /** Whether a match can start at `k`: the run after the `:` must stop at a `;`. */
  predicate StartsMatch(h: string, k: nat) {
    k < |h| && h[k] == ':' && RunEnd(h, k + 1) < |h| && h[RunEnd(h, k + 1)] == ';'
  }

  /**
   * The capture group of the leftmost match starting at or after `k`: a
   * run of passable characters taken from `h`.
   */
  function MatchFrom(h: string, k: nat): (r: Option<string>)
    ensures r.Some? ==> AllPassable(r.value)
    ensures r.Some? && CommaFree(h) ==> CommaFree(r.value)
    decreases |h| - k
  {
    if k >= |h| then None
    else if StartsMatch(h, k) then
      var e := RunEnd(h, k + 1);
      var capture := h[k + 1..e];
      assert forall i :: 0 <= i < |capture| ==> capture[i] == h[k + 1 + i];
      Some(capture)
    else MatchFrom(h, k + 1)
  }

  /** `header.match(/:(.*?);/)?.[1]`. */
  function MimeMatch(header: string): Option<string> {
    MatchFrom(header, 0)
  }

  /** A lazy match from a given `:` has only one possible end. */
  lemma MatchEnd(h: string, k: int, e: int)
    requires 0 <= k < |h|
    ensures MatchesAt(h, k, e) <==> StartsMatch(h, k) && e == RunEnd(h, k + 1)
  {
  }

  /**
   * `MatchFrom` finds the leftmost `:` at or after `k` from which the
   * pattern matches, and captures the text up to the `;`.
   */
  lemma {:induction false} MatchFromSpec(h: string, k: nat)
    ensures MatchFrom(h, k).Some? ==>
      exists s, e :: (k <= s && MatchesAt(h, s, e) && MatchFrom(h, k).value == h[s + 1..e]
        && forall s', e' :: k <= s' < s ==> !MatchesAt(h, s', e'))
    ensures MatchFrom(h, k).None? ==> forall s, e :: k <= s ==> !MatchesAt(h, s, e)
    decreases |h| - k
  {
    if k >= |h| {
    } else if StartsMatch(h, k) {
      MatchEnd(h, k, RunEnd(h, k + 1));
      assert MatchesAt(h, k, RunEnd(h, k + 1));
    } else {
      MatchFromSpec(h, k + 1);
      forall e | true
        ensures !MatchesAt(h, k, e)
      {
        MatchEnd(h, k, e);
      }
    }
  }

  /** The text after the first comma, up to the second comma if there is one: `s.split(",")[1]`. */
  function SecondPiece(s: string): (d: string)
    requires IndexOf(s, ",").Some?
  {
    var i := IndexOf(s, ",").value;
    SplitUnfold(s, ",", i);
    Split(s, ",")[1]
  }

  /** The data both image endpoints forward: the second comma-separated piece, or the whole input. */
  function DataPart(payload: string): string {
    if IndexOf(payload, ",").Some? then SecondPiece(payload) else payload
  }

  datatype Image = Image(mimeType: string, data: string)

  /**
   * The vision endpoint's reading of a payload: its data and the MIME type
   * named in its header. Whatever the payload, the result is a pair a data
   * URL can carry: a type without `;`, `,` or line terminator, and data
   * without a comma.
   */
  function ParseImage(payload: string): (image: Image)
    ensures image.data == DataPart(payload)
    ensures AllPassable(image.mimeType) && CommaFree(image.mimeType) && CommaFree(image.data)
  {
    DataPartCommaFree(payload);
    DefaultTypeReadable();
    match IndexOf(payload, ",")
    case None => Image(DefaultMimeType, payload)
    case Some(i) =>
      var header := payload[..i];
      SplitUnfold(payload, ",", i);
      assert Split(payload, ",")[0] == header;
      LeftmostPrefixFree(payload, ",", i);
      IndexOfSpec(header, ",");
      CommaFreeIndex(header);
      Image(MimeMatch(header).GetOr(DefaultMimeType), DataPart(payload))
  }

  lemma DefaultTypeReadable()
    ensures AllPassable(DefaultMimeType) && CommaFree(DefaultMimeType)
  {
    assert DefaultMimeType == ['i', 'm', 'a', 'g', 'e', '/', 'j', 'p', 'e', 'g'];
  }

  /** The forwarded data never holds a comma. */
  lemma DataPartCommaFree(payload: string)
    ensures CommaFree(DataPart(payload))
  {
    if IndexOf(payload, ",").Some? {
      var parts := Split(payload, ",");
      assert IndexOf(parts[1], ",").None?;
      CommaFreeIndex(parts[1]);
    } else {
      CommaFreeIndex(payload);
    }
  }

  /** Reading an image and writing it back as a data URL gives the same reading. */
  lemma ReadingIsStable(payload: string)
    ensures var image := ParseImage(payload);
      ParseImage("data:" + image.mimeType + ";base64," + image.data) == image
  {
    var image := ParseImage(payload);
    DataUrlRoundTrip(image.mimeType, image.data);
  }

  predicate CommaFree(s: string) {
    forall k :: 0 <= k < |s| ==> s[k] != ','
  }

  lemma CommaFreeIndex(s: string)
    ensures CommaFree(s) <==> IndexOf(s, ",").None?
  {
    IndexOfSpec(s, ",");
    if !CommaFree(s) {
      var k :| 0 <= k < |s| && s[k] == ',';
      assert OccursAt(s, ",", k);
    }
    if IndexOf(s, ",").Some? {
      var k := IndexOf(s, ",").value;
      assert s[k..k + 1][0] == s[k];
    }
  }

  /** Raw base64 without a comma passes through unchanged, labelled `image/jpeg`. */
  lemma NoCommaPassesThrough(payload: string)
    requires CommaFree(payload)
    ensures ParseImage(payload) == Image("image/jpeg", payload)
    ensures DataPart(payload) == payload
  {
    CommaFreeIndex(payload);
  }

  /** With commas, the data is exactly what lies between the first and the second comma. */
  lemma DataBetweenCommas(header: string, data: string, tail: string)
    requires CommaFree(header) && CommaFree(data)
    ensures DataPart(header + "," + data) == data
    ensures DataPart(header + "," + data + "," + tail) == data
    ensures ParseImage(header + "," + data + "," + tail).data == data
  {
    CommaFreeIndex(header);
    CommaFreeIndex(data);
    FirstComma(header, data);
    FirstComma(header, data + "," + tail);
    assert header + "," + data + "," + tail == header + "," + (data + "," + tail);
    FirstComma(data, tail);
    SplitUnfold(data + "," + tail, ",", |data|);
    assert (data + "," + tail)[..|data|] == data;
  }

  /** In `header + "," + rest` with a comma-free header, the first comma follows the header. */
  lemma FirstComma(header: string, rest: string)
    requires CommaFree(header)
    ensures IndexOf(header + "," + rest, ",") == Some(|header|)
    ensures Split(header + "," + rest, ",") == [header] + Split(rest, ",")
  {
    var s := header + "," + rest;
    IndexOfSpec(s, ",");
    assert OccursAt(s, ",", |header|);
    assert Contains(s, ",");
    var i := IndexOf(s, ",").value;
    assert s[i] == s[i..i + 1][0] == ',';
    SplitUnfold(s, ",", i);
    assert s[..i] == header;
    assert s[i + 1..] == rest;
  }

  /**
   * Reading a data URL back: a type without `;`, `,` or line terminator
   * and comma-free data are recovered exactly.
   */
  lemma DataUrlRoundTrip(mimeType: string, data: string)
    requires AllPassable(mimeType) && CommaFree(mimeType) && CommaFree(data)
    ensures ParseImage("data:" + mimeType + ";base64," + data) == Image(mimeType, data)
  {
    var header := "data:" + mimeType + ";base64";
    assert "data:" + mimeType + ";base64," + data == header + "," + data;
    assert CommaFree(header) by {
      assert forall k :: 0 <= k < |header| ==>
        header[k] == if k < 5 then "data:"[k] else if k < 5 + |mimeType| then mimeType[k - 5] else ";base64"[k - 5 - |mimeType|];
    }
    DataBetweenCommas(header, data, "");
    FirstComma(header, data);
    assert (header + "," + data)[..|header|] == header;
    HeaderType(mimeType);
  }

  /** The type named between `data:` and the first `;` is what the expression captures. */
  lemma HeaderType(mimeType: string)
    requires AllPassable(mimeType)
    ensures MimeMatch("data:" + mimeType + ";base64") == Some(mimeType)
  {
    var h := "data:" + mimeType + ";base64";
    assert h[4] == ':' && h[5 + |mimeType|] == ';';
    assert forall k :: 5 <= k < 5 + |mimeType| ==> h[k] == mimeType[k - 5];
    MatchEnd(h, 4, 5 + |mimeType|);
    assert MatchesAt(h, 4, 5 + |mimeType|);
    assert StartsMatch(h, 4);
    assert h[5..5 + |mimeType|] == mimeType;
    assert h[0] == 'd' && h[1] == 'a' && h[2] == 't' && h[3] == 'a';
    assert MatchFrom(h, 0) == MatchFrom(h, 1) == MatchFrom(h, 2) == MatchFrom(h, 3) == MatchFrom(h, 4);
  }

  /** A header with no `:…;` segment leaves the default type in place. */
  lemma HeaderWithoutSemicolon(mimeType: string, data: string)
    requires CommaFree(mimeType) && CommaFree(data)
    requires forall k :: 0 <= k < |mimeType| ==> mimeType[k] != ';'
    ensures ParseImage("data:" + mimeType + "," + data) == Image("image/jpeg", data)
  {
    var header := "data:" + mimeType;
    assert "data:" + mimeType + "," + data == header + "," + data;
    assert forall k :: 0 <= k < |header| ==> header[k] == if k < 5 then "data:"[k] else mimeType[k - 5];
    assert CommaFree(header);
    DataBetweenCommas(header, data, "");
    FirstComma(header, data);
    assert (header + "," + data)[..|header|] == header;
    assert forall i :: 0 <= i < |header| ==> header[i] != ';';
    MatchFromSpec(header, 0);
  }
}
