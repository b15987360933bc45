/**
  The data-URI image pattern shared by the three chat handlers,
  `^data:([a-zA-Z0-9]+\/[a-zA-Z0-9-.+]+);base64,(.+)$`, written as a
  hand parser over strings. Group 1 is the MIME type, group 2 the payload.
 */
module DataUri {
  import opened Js

  const Scheme: string := "data:"
  const Marker: string := ";base64,"

  /** The two character classes of the pattern. */
  datatype CharClass = TypeChars | SubtypeChars

  predicate IsAlnum(c: char) {
    ('a' <= c <= 'z') || ('A' <= c <= 'Z') || ('0' <= c <= '9')
  }

  /** `[a-zA-Z0-9]` for the top-level type, `[a-zA-Z0-9-.+]` for the subtype. */
  predicate InClass(cls: CharClass, c: char) {
    match cls
    case TypeChars => IsAlnum(c)
    case SubtypeChars => IsAlnum(c) || c == '-' || c == '.' || c == '+'
  }

  /** The characters a regular-expression `.` does not match. */
  predicate IsLineTerminator(c: char) {
    c == '\n' || c == '\r' || c == '\U{2028}' || c == '\U{2029}'
  }

  predicate AllIn(cls: CharClass, s: string) {
    forall i :: 0 <= i < |s| ==> InClass(cls, s[i])
  }

  predicate SingleLine(s: string) {
    forall i :: 0 <= i < |s| ==> !IsLineTerminator(s[i])
  }

  /** A matched data URI: `data:` topType `/` subtype `;base64,` payload. */
  datatype DataUri = DataUri(topType: string, subtype: string, payload: string) {

    /** Capture group 1. */
    function MimeType(): string {
      topType + "/" + subtype
    }

    /** The components satisfy the character classes and `+` repetitions of the pattern. */
    predicate WellFormed() {
      && |topType| > 0 && AllIn(TypeChars, topType)
      && |subtype| > 0 && AllIn(SubtypeChars, subtype)
      && |payload| > 0 && SingleLine(payload)
    }

    /** The string these components spell. */
    function Render(): string {
      Scheme + topType + "/" + subtype + Marker + payload
    }
  }

  /** Declarative reading of the pattern: `s` is exactly the rendering of well-formed `d`. */
  predicate HasForm(s: string, d: DataUri) {
    d.WellFormed() && s == d.Render()
  }

  /** The end of the longest run of `cls` characters starting at `i`. */
  function Span(cls: CharClass, s: string, i: nat): (j: nat)
    requires i <= |s|
    ensures i <= j <= |s|
    ensures forall k :: i <= k < j ==> InClass(cls, s[k])
    ensures j < |s| ==> !InClass(cls, s[j])
    decreases |s| - i
  {
    if i < |s| && InClass(cls, s[i]) then Span(cls, s, i + 1) else i
  }

  /**
    `String.prototype.match` with the pattern. Neither class contains the
    delimiter that follows it (`/`, then `;`), so each group ends at the end of
    the longest run of its class and no backtracking is needed.
   */
  function Parse(s: string): (r: Option<DataUri>)
    ensures r.Some? ==> HasForm(s, r.value)
  {
    if !(|Scheme| <= |s| && s[..|Scheme|] == Scheme) then None
    else
      var slash := Span(TypeChars, s, |Scheme|);
      if slash == |Scheme| || slash == |s| || s[slash] != '/' then None
      else
        var semi := Span(SubtypeChars, s, slash + 1);
        if semi == slash + 1 || !(semi + |Marker| <= |s| && s[semi..semi + |Marker|] == Marker) then None
        else
          var payload := s[semi + |Marker|..];
          if payload == [] || !SingleLine(payload) then None
          else
            var d := DataUri(s[|Scheme|..slash], s[slash + 1..semi], payload);
            assert s == d.Render() by {
              assert s == s[..|Scheme|] + s[|Scheme|..slash] + [s[slash]] + s[slash + 1..semi]
                          + s[semi..semi + |Marker|] + s[semi + |Marker|..];
            }
            Some(d)
  }

  /** The match of a truthy `imageBase64`; None when it is falsy or does not match. */
  function MatchImage(image: Option<string>): Option<DataUri> {
    if Truthy(image) then Parse(image.value) else None
  }

  /** A run of `cls` characters that is followed by a non-member (or the end) is what Span finds. */
  lemma {:induction false} SpanStopsAt(cls: CharClass, s: string, i: nat, j: nat)
    requires i <= j <= |s|
    requires forall k :: i <= k < j ==> InClass(cls, s[k])
    requires j < |s| ==> !InClass(cls, s[j])
    ensures Span(cls, s, i) == j
    decreases j - i
  {
    if i < j {
      SpanStopsAt(cls, s, i + 1, j);
    }
  }

  /** Every well-formed data URI is matched, and the groups give back its components. */
  lemma ParseRender(d: DataUri)
    requires d.WellFormed()
    ensures Parse(d.Render()) == Some(d)
  {
    var s := d.Render();
    var slash := |Scheme| + |d.topType|;
    var semi := slash + 1 + |d.subtype|;
    assert s[..|Scheme|] == Scheme;
    assert s[|Scheme|..slash] == d.topType;
    assert s[slash] == '/';
    assert s[slash + 1..semi] == d.subtype;
    assert s[semi..semi + |Marker|] == Marker;
    assert s[semi + |Marker|..] == d.payload;
    forall k | |Scheme| <= k < slash ensures InClass(TypeChars, s[k]) {
      assert s[k] == d.topType[k - |Scheme|];
    }
    SpanStopsAt(TypeChars, s, |Scheme|, slash);
    forall k | slash + 1 <= k < semi ensures InClass(SubtypeChars, s[k]) {
      assert s[k] == d.subtype[k - slash - 1];
    }
    assert s[semi] == ';';
    SpanStopsAt(SubtypeChars, s, slash + 1, semi);
  }

  /** The parser accepts exactly the strings of the declared form, with the components as groups. */
  lemma ParseIffForm(s: string, d: DataUri)
    ensures Parse(s) == Some(d) <==> HasForm(s, d)
  {
    if HasForm(s, d) {
      ParseRender(d);
    }
  }

  /** A string is rejected exactly when it has that form for no choice of components. */
  lemma ParseRejectsIffNoForm(s: string)
    ensures Parse(s).None? <==> forall d :: !HasForm(s, d)
  {
    if d :| HasForm(s, d) {
      ParseRender(d);
    }
  }

  /** Group 1 of a match holds exactly one `/`, the one after the top-level type. */
  lemma MimeTypeHasOneSlash(d: DataUri)
    requires d.WellFormed()
    ensures forall i :: 0 <= i < |d.MimeType()| ==> (d.MimeType()[i] == '/' <==> i == |d.topType|)
  {
    var m := d.MimeType();
    forall i | 0 <= i < |m| ensures m[i] == '/' <==> i == |d.topType| {
      if i < |d.topType| {
        assert m[i] == d.topType[i];
        assert InClass(TypeChars, d.topType[i]);
      } else if i > |d.topType| {
        assert m[i] == d.subtype[i - |d.topType| - 1];
        assert InClass(SubtypeChars, d.subtype[i - |d.topType| - 1]);
      }
    }
  }

  /** The payload is everything after the first `;base64,`, and may itself contain that marker. */
  lemma PayloadKeepsLaterMarkers(d: DataUri)
    requires d.WellFormed()
    ensures Parse(d.Render() + Marker + d.payload) == Some(DataUri(d.topType, d.subtype, d.payload + Marker + d.payload))
  {
    var e := DataUri(d.topType, d.subtype, d.payload + Marker + d.payload);
    assert SingleLine(e.payload) by {
      forall i | 0 <= i < |e.payload| ensures !IsLineTerminator(e.payload[i]) {
        if i >= |d.payload| + |Marker| {
          assert e.payload[i] == d.payload[i - |d.payload| - |Marker|];
        } else if i < |d.payload| {
          assert e.payload[i] == d.payload[i];
        }
      }
    }
    assert e.Render() == d.Render() + Marker + d.payload;
    ParseRender(e);
  }
}
