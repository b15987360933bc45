/**
  History normalisation: turning the loosely typed `history` array of a chat
  request into provider turns. server.js and api/app.js drop entries without
  text; api/index.js keeps a window of the last entries and collapses runs of
  one role instead.
 */
module History {
  import opened Js
  import opened Gemini
  import opened ChatApi

  /** Which role spellings a revision reads as the provider's `model` role. */
  datatype RoleRule = ModelOnly | ModelOrAssistant

  /** `h.role === 'model' ? 'model' : 'user'`, or the same test also accepting `'assistant'`. */
  function CanonicalRole(rule: RoleRule, role: string): Role {
    if role == "model" || (rule == ModelOrAssistant && role == "assistant") then Model else User
  }

  // ---------------------------------------------------------------------------
  // Drop-empty rule: server.js and api/app.js
  // ---------------------------------------------------------------------------

  /** The turn an entry with truthy text becomes. */
  function AsTurn(rule: RoleRule, e: HistEntry): Turn {
    TextTurn(CanonicalRole(rule, e.role), Or(e.text, ""))
  }

  /** The turns one entry contributes: none when its text is falsy. */
  function KeptTurn(rule: RoleRule, e: HistEntry): seq<Turn> {
    if Truthy(e.text) then [AsTurn(rule, e)] else []
  }

  /** The `contents` prefix the `history.forEach` loop builds. */
  function DropEmpty(rule: RoleRule, h: seq<HistEntry>): seq<Turn>
    decreases |h|
  {
    if h == [] then [] else DropEmpty(rule, h[..|h| - 1]) + KeptTurn(rule, h[|h| - 1])
  }

  /** The positions of the entries whose text is truthy, in increasing order. */
  function TextIndices(h: seq<HistEntry>): (r: seq<nat>)
    ensures forall k :: 0 <= k < |r| ==> r[k] < |h| && Truthy(h[r[k]].text)
    ensures forall k, l :: 0 <= k < l < |r| ==> r[k] < r[l]
    ensures forall j :: 0 <= j < |h| && Truthy(h[j].text) ==> j in r
    decreases |h|
  {
    if h == [] then []
    else
      var r0 := TextIndices(h[..|h| - 1]);
      assert forall j :: 0 <= j < |h| - 1 ==> h[..|h| - 1][j] == h[j];
      r0 + (if Truthy(h[|h| - 1].text) then [|h| - 1] else [])
  }

  /** The loop: `forEach` entry, push a text turn when `h.text` is truthy. */
  method MapHistory(rule: RoleRule, history: seq<HistEntry>) returns (contents: seq<Turn>)
    ensures contents == DropEmpty(rule, history)
  {
    contents := [];
    var i := 0;
    while i < |history|
      invariant 0 <= i <= |history|
      invariant contents == DropEmpty(rule, history[..i])
    {
      var h := history[i];
      if Truthy(h.text) {
        contents := contents + [TextTurn(CanonicalRole(rule, h.role), h.text.value)];
        assert [TextTurn(CanonicalRole(rule, h.role), h.text.value)] == KeptTurn(rule, h);
      }
      assert history[..i + 1][..i] == history[..i];
      i := i + 1;
    }
    assert history[..|history|] == history;
  }

  /** Entries are processed one by one: the result for a concatenation is the concatenation of results. */
  lemma {:induction false} DropEmptyConcat(rule: RoleRule, a: seq<HistEntry>, b: seq<HistEntry>)
    ensures DropEmpty(rule, a + b) == DropEmpty(rule, a) + DropEmpty(rule, b)
    decreases |b|
  {
    if b == [] {
      assert a + b == a;
    } else {
      var b' := b[..|b| - 1];
      assert (a + b)[..|a + b| - 1] == a + b';
      DropEmptyConcat(rule, a, b');
    }
  }

  /**
    The result is exactly one single-text-part turn per entry with truthy text,
    in the entries' original order, carrying that text and the canonical role.
   */
  lemma {:induction false} DropEmptyKeepsTextEntries(rule: RoleRule, h: seq<HistEntry>)
    ensures |DropEmpty(rule, h)| == |TextIndices(h)|
    ensures forall k :: 0 <= k < |TextIndices(h)| ==> DropEmpty(rule, h)[k] == AsTurn(rule, h[TextIndices(h)[k]])
    decreases |h|
  {
    if h != [] {
      var n := |h|;
      var h' := h[..n - 1];
      DropEmptyKeepsTextEntries(rule, h');
      var r, r' := DropEmpty(rule, h), DropEmpty(rule, h');
      var ks, ks' := TextIndices(h), TextIndices(h');
      assert r == r' + KeptTurn(rule, h[n - 1]);
      assert ks == ks' + (if Truthy(h[n - 1].text) then [n - 1] else []);
      forall k | 0 <= k < |ks| ensures r[k] == AsTurn(rule, h[ks[k]]) {
        if k < |ks'| {
          assert r[k] == r'[k] && ks[k] == ks'[k];
          assert h'[ks'[k]] == h[ks'[k]];
        } else {
          assert ks[k] == n - 1;
        }
      }
    }
  }

  // ---------------------------------------------------------------------------
  // Window and run collapsing: api/index.js
  // ---------------------------------------------------------------------------

  const WindowSize: nat := 4
  const Filler: string := "..."

  /** `history.slice(-4)`: the last four entries, or all of them when there are fewer. */
  function Window(h: seq<HistEntry>): (w: seq<HistEntry>)
    ensures |w| == if |h| < WindowSize then |h| else WindowSize
    ensures w == h[|h| - |w|..]
  {
    h[if |h| > WindowSize then |h| - WindowSize else 0..]
  }

  /** `h.text || "..."`: an entry is never dropped for its text. */
  function FilledText(e: HistEntry): string {
    Or(e.text, Filler)
  }

  /** The role api/index.js gives an entry. */
  function IndexRole(e: HistEntry): Role {
    CanonicalRole(ModelOrAssistant, e.role)
  }

  /**
    The turns the `lastRole` loop pushes for `w`: an entry is skipped when its
    role equals the role of the turn pushed last.
   */
  function Collapse(w: seq<HistEntry>): (seg: seq<Turn>)
    ensures |seg| <= |w|
    ensures w != [] ==> seg != [] && seg[|seg| - 1].role == IndexRole(w[|w| - 1])
    decreases |w|
  {
    if w == [] then []
    else
      var prev := Collapse(w[..|w| - 1]);
      var e := w[|w| - 1];
      if prev != [] && prev[|prev| - 1].role == IndexRole(e) then prev
      else prev + [TextTurn(IndexRole(e), FilledText(e))]
  }

  /**
    Reference definition: keep entry j exactly when it starts a run, that is when
    it is the first entry or its role differs from that of the entry before it.
   */
  function RunHeads(w: seq<HistEntry>): seq<Turn>
    decreases |w|
  {
    if w == [] then []
    else
      var n := |w|;
      RunHeads(w[..n - 1])
        + (if n == 1 || IndexRole(w[n - 2]) != IndexRole(w[n - 1])
           then [TextTurn(IndexRole(w[n - 1]), FilledText(w[n - 1]))] else [])
  }

  predicate Alternates(ts: seq<Turn>) {
    forall i :: 0 <= i < |ts| - 1 ==> ts[i].role != ts[i + 1].role
  }

  /** One more entry: skipped when its role is that of the last turn, pushed otherwise. */
  lemma CollapseStep(w: seq<HistEntry>, i: nat)
    requires i < |w|
    ensures Collapse(w[..i + 1]) ==
      if Collapse(w[..i]) != [] && Collapse(w[..i])[|Collapse(w[..i])| - 1].role == IndexRole(w[i])
      then Collapse(w[..i])
      else Collapse(w[..i]) + [TextTurn(IndexRole(w[i]), FilledText(w[i]))]
  {
    assert w[..i + 1][..i] == w[..i];
  }

  /** The `forEach` over `history.slice(-4)` with `lastRole`, which starts as `null`. */
  method CollapseRuns(recent: seq<HistEntry>) returns (segment: seq<Turn>)
    ensures segment == Collapse(recent)
  {
    var lastRole: Option<Role> := None;
    segment := [];
    var i := 0;
    while i < |recent|
      invariant 0 <= i <= |recent|
      invariant segment == Collapse(recent[..i])
      invariant lastRole == if segment == [] then None else Some(segment[|segment| - 1].role)
    {
      var h := recent[i];
      var role := IndexRole(h);
      CollapseStep(recent, i);
      if lastRole != Some(role) {
        segment := segment + [TextTurn(role, FilledText(h))];
        lastRole := Some(role);
      }
      i := i + 1;
    }
    assert recent[..|recent|] == recent;
  }

  /** Comparing with the last pushed turn is the same as comparing with the previous entry. */
  lemma {:induction false} CollapseKeepsRunHeads(w: seq<HistEntry>)
    ensures Collapse(w) == RunHeads(w)
    decreases |w|
  {
    if w != [] {
      var w' := w[..|w| - 1];
      CollapseKeepsRunHeads(w');
      if |w| > 1 {
        assert w'[|w'| - 1] == w[|w| - 2];
      }
    }
  }

  /** No two adjacent turns of the collapsed segment share a role. */
  lemma {:induction false} CollapseAlternates(w: seq<HistEntry>)
    ensures Alternates(Collapse(w))
    decreases |w|
  {
    if w != [] {
      CollapseAlternates(w[..|w| - 1]);
    }
  }

  /**
    Every collapsed turn is a single non-empty text part, and it is the turn of
    some window entry: that entry's role, and its text or `"..."` when the text is falsy.
   */
  lemma {:induction false} CollapseTextParts(w: seq<HistEntry>)
    ensures forall t :: t in Collapse(w) ==> |t.parts| == 1 && t.parts[0].Text? && t.parts[0].text != ""
    ensures forall k :: 0 <= k < |Collapse(w)| ==>
      exists j :: 0 <= j < |w| && Collapse(w)[k] == TextTurn(IndexRole(w[j]), FilledText(w[j]))
    decreases |w|
  {
    if w == [] {
      assert Collapse(w) == [];
    } else {
      var n := |w|;
      var w' := w[..n - 1];
      CollapseTextParts(w');
      var seg, prev := Collapse(w), Collapse(w');
      var last := w[n - 1];
      var pushed := TextTurn(IndexRole(last), FilledText(last));
      assert seg == prev || seg == prev + [pushed];
      forall k | 0 <= k < |seg|
        ensures exists j :: 0 <= j < |w| && Collapse(w)[k] == TextTurn(IndexRole(w[j]), FilledText(w[j]))
      {
        if k < |prev| {
          assert seg[k] == prev[k];
          var j :| 0 <= j < |w'| && prev[k] == TextTurn(IndexRole(w'[j]), FilledText(w'[j]));
          assert w'[j] == w[j];
        } else {
          assert seg[k] == pushed && w[n - 1] == last;
        }
      }
    }
  }
}
