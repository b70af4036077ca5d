/**
 * `src/components/LocalityTypeahead.tsx`: the locality input with its
 * suggestion list. The list shows the first eight suggestions that contain
 * the typed text (all suggestions when nothing is typed); the keyboard opens
 * and closes it, moves the highlighted option and commits it.
 */
module Typeahead {
  import opened Strings

  /** At most this many options are listed. */
  const MAX_OPTIONS := 8

  /** `norm(s)`: trimmed and lower-cased. */
  function NormQuery(s: string): (r: string)
    ensures |r| <= |s|
    ensures forall i :: 0 <= i < |r| ==> !('A' <= r[i] <= 'Z')
  {
    Lower(Trim(s))
  }

  /** `suggestions.filter(s => norm(s).includes(q))`: the matching suggestions, in order. */
  function Matching(q: string, suggestions: seq<string>): (r: seq<string>)
    ensures |r| <= |suggestions|
    ensures forall i :: 0 <= i < |r| ==> r[i] in suggestions && Contains(NormQuery(r[i]), q)
    ensures forall x :: x in suggestions && Contains(NormQuery(x), q) ==> x in r
  {
    if suggestions == [] then []
    else
      var rest := Matching(q, suggestions[1..]);
      if Contains(NormQuery(suggestions[0]), q) then [suggestions[0]] + rest else rest
  }

  /** Listing keeps the original order: a suggestion that matches nothing is simply dropped. */
  lemma {:induction false} MatchingAppend(q: string, a: seq<string>, b: seq<string>)
    ensures Matching(q, a + b) == Matching(q, a) + Matching(q, b)
  {
    if a == [] {
      assert a + b == b;
    } else {
      assert (a + b)[1..] == a[1..] + b;
      MatchingAppend(q, a[1..], b);
    }
  }

  /** The `filtered` memo for the input's value and the suggestion list. */
  function Filtered(value: string, suggestions: seq<string>): (r: seq<string>)
    ensures |r| <= MAX_OPTIONS && |r| <= |suggestions|
    ensures forall i :: 0 <= i < |r| ==> r[i] in suggestions
    ensures NormQuery(value) == "" ==> r == Take(suggestions, MAX_OPTIONS)
    ensures NormQuery(value) == "" ==> r == suggestions[..|r|] && (|suggestions| <= MAX_OPTIONS ==> r == suggestions)
    ensures NormQuery(value) != "" ==> r == Take(Matching(NormQuery(value), suggestions), MAX_OPTIONS)
    ensures NormQuery(value) != "" ==> forall i :: 0 <= i < |r| ==> Contains(NormQuery(r[i]), NormQuery(value))
    ensures NormQuery(value) != "" && |Matching(NormQuery(value), suggestions)| <= MAX_OPTIONS ==>
      forall x :: x in suggestions && Contains(NormQuery(x), NormQuery(value)) ==> x in r
  {
    var q := NormQuery(value);
    if q == "" then Take(suggestions, MAX_OPTIONS) else TopMatches(q, suggestions)
  }

  /** The first eight matching suggestions, in order. */
  function TopMatches(q: string, suggestions: seq<string>): (r: seq<string>)
    ensures |r| <= MAX_OPTIONS && |r| <= |suggestions|
    ensures var m := Matching(q, suggestions);
      |r| == (if |m| < MAX_OPTIONS then |m| else MAX_OPTIONS) && forall i :: 0 <= i < |r| ==> r[i] == m[i]
    ensures forall i :: 0 <= i < |r| ==> r[i] in suggestions && Contains(NormQuery(r[i]), q)
    ensures |Matching(q, suggestions)| <= MAX_OPTIONS ==>
      forall x :: x in suggestions && Contains(NormQuery(x), q) ==> x in r
  {
    var m := Matching(q, suggestions);
    var r := Take(m, MAX_OPTIONS);
    assert forall i :: 0 <= i < |r| ==> r[i] == m[i];
    r
  }

  /** Once eight suggestions match, the ones listed after them cannot change the list. */
  lemma TopMatchesSettled(q: string, a: seq<string>, b: seq<string>)
    requires |Matching(q, a)| >= MAX_OPTIONS
    ensures TopMatches(q, a + b) == TopMatches(q, a)
  {
    MatchingAppend(q, a, b);
    var m := Matching(q, a);
    assert (m + Matching(q, b))[..MAX_OPTIONS] == m[..MAX_OPTIONS];
  }

  /** A suggestion that does not match changes nothing wherever it is listed. */
  lemma TopMatchesSkipsMismatch(q: string, a: seq<string>, x: string, b: seq<string>)
    requires !Contains(NormQuery(x), q)
    ensures TopMatches(q, a + [x] + b) == TopMatches(q, a + b)
  {
    MatchingAppend(q, a + [x], b);
    MatchingAppend(q, a, [x]);
    MatchingAppend(q, a, b);
    assert [x][1..] == [];
    assert Matching(q, [x]) == [];
    assert Matching(q, a) + [] == Matching(q, a);
  }

  /** `Math.min(i + 1, filtered.length - 1)` */
  function DownIndex(i: int, len: nat): (r: int)
    ensures len == 0 && i >= -1 ==> r == -1
    ensures len > 0 && -1 <= i < len ==> 0 <= r < len && r == (if i < len - 1 then i + 1 else i)
  {
    if i + 1 <= len - 1 then i + 1 else len - 1
  }

  /** `Math.max(i - 1, 0)`: never -1, so an empty list still gets index 0. */
  function UpIndex(i: int): (r: int)
    ensures r >= 0
    ensures i >= 1 ==> r == i - 1
    ensures i <= 1 ==> r == 0
  {
    if i - 1 >= 0 then i - 1 else 0
  }

  /** The keys `onKeyDown` tells apart. */
  datatype Key = ArrowDown | ArrowUp | Escape | Enter | OtherKey

  /** `filtered[activeIndex]` is an option to commit: it exists and is not empty. */
  predicate Committable(filtered: seq<string>, i: int) {
    0 <= i < |filtered| && filtered[i] != ""
  }

  /** The combobox state; `value` is the controlled value the parent keeps in step through `onChange`. */
  class Combobox {
    var value: string
    var suggestions: seq<string>
    var open: bool
    var activeIndex: int

    /** `useState(false)`, `useState(-1)` */
    constructor (value: string, suggestions: seq<string>)
      ensures this.value == value && this.suggestions == suggestions
      ensures !open && activeIndex == -1
    {
      this.value := value;
      this.suggestions := suggestions;
      open := false;
      activeIndex := -1;
    }

    /** The options on the list now. */
    function Options(): seq<string>
      reads this
    {
      Filtered(value, suggestions)
    }

    /** The highlight is off (-1) or on a listed option. */
    predicate InRange()
      reads this
    {
      activeIndex == -1 || 0 <= activeIndex < |Options()|
    }

    /** `onFocus` */
    method Focus()
      modifies this
      ensures open && value == old(value) && suggestions == old(suggestions) && activeIndex == old(activeIndex)
    {
      open := true;
    }

    /** `onChange`: the new text, the list opened, the highlight off. */
    method Type(next: string)
      modifies this
      ensures value == next && open && activeIndex == -1 && suggestions == old(suggestions)
      ensures InRange()
    {
      value := next;
      open := true;
      activeIndex := -1;
    }

    /** `commit(selection)` */
    method Commit(selection: string)
      modifies this
      ensures value == selection && !open && activeIndex == -1 && suggestions == old(suggestions)
      ensures InRange()
    {
      value := selection;
      open := false;
      activeIndex := -1;
    }

    /** `onMouseEnter` on the option at `idx`, which is on the list. */
    method Hover(idx: int)
      requires 0 <= idx < |Options()|
      modifies this
      ensures activeIndex == idx && value == old(value) && open == old(open) && suggestions == old(suggestions)
      ensures InRange()
    {
      activeIndex := idx;
    }

    /** The document's `mousedown` outside the widget. */
    method OutsideClick()
      modifies this
      ensures !open && value == old(value) && activeIndex == old(activeIndex) && suggestions == old(suggestions)
    {
      open := false;
    }

    /**
     * The parent passes a new suggestion list (another area); the highlight is
     * not reset, so it may point past the new list until the next key or edit.
     */
    method SetSuggestions(s: seq<string>)
      modifies this
      ensures suggestions == s && value == old(value) && open == old(open) && activeIndex == old(activeIndex)
    {
      suggestions := s;
    }

    /**
     * `onKeyDown(e)`. Closed: an arrow only opens, anything else is ignored.
     * Open: Escape closes, the arrows move the highlight, Enter commits a
     * highlighted option that exists and is not empty.
     */
    method KeyDown(k: Key)
      modifies this
      ensures suggestions == old(suggestions)
      ensures !old(open) && (k == ArrowDown || k == ArrowUp) ==>
        open && value == old(value) && activeIndex == old(activeIndex)
      ensures !old(open) && !(k == ArrowDown || k == ArrowUp) ==>
        !open && value == old(value) && activeIndex == old(activeIndex)
      ensures old(open) && k == Escape ==> !open && value == old(value) && activeIndex == old(activeIndex)
      ensures old(open) && k == ArrowDown ==>
        open && value == old(value) && activeIndex == DownIndex(old(activeIndex), |old(Options())|)
      ensures old(open) && k == ArrowUp ==>
        open && value == old(value) && activeIndex == UpIndex(old(activeIndex))
      ensures old(open) && k == Enter && Committable(old(Options()), old(activeIndex)) ==>
        value == old(Options())[old(activeIndex)] && !open && activeIndex == -1
      ensures old(open) && k == Enter && !Committable(old(Options()), old(activeIndex)) ==>
        open && value == old(value) && activeIndex == old(activeIndex)
      ensures old(open) && k == OtherKey ==> open && value == old(value) && activeIndex == old(activeIndex)
      ensures old(InRange()) && !(old(open) && k == ArrowUp && |old(Options())| == 0) ==> InRange()
    {
      if !open && (k == ArrowDown || k == ArrowUp) {
        open := true;
        return;
      }
      if !open {
        return;
      }
      var filtered := Options();
      match k
      case Escape => open := false;
      case ArrowDown => activeIndex := DownIndex(activeIndex, |filtered|);
      case ArrowUp => activeIndex := UpIndex(activeIndex);
      case Enter =>
        if activeIndex >= 0 && activeIndex < |filtered| && filtered[activeIndex] != "" {
          Commit(filtered[activeIndex]);
        }
      case OtherKey =>
    }
  }
}
