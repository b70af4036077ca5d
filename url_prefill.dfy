/**
 * `src/lib/urlPrefill.ts`: reading a lead draft out of a page URL's query
 * parameters, and writing a share link that carries a draft back into them.
 */
module UrlPrefill {
  import opened Wrappers
  import opened Strings
  import opened LeadDraft

  // ---------------------------------------------------------------- query parameters

  /** A query string as `URLSearchParams` holds it: decoded (name, value) pairs, in order. */
  type Params = seq<(string, string)>

  /** A parsed URL; only its origin, its path and its query parameters are modelled. */
  datatype Url = Url(origin: string, path: string, params: Params)

  /** `params.get(name)`: the value of the first pair with that name. */
  function Get(p: Params, name: string): (r: Option<string>)
    ensures r.Some? ==> (name, r.value) in p
    ensures r.None? <==> forall i :: 0 <= i < |p| ==> p[i].0 != name
  {
    if |p| == 0 then None
    else if p[0].0 == name then Some(p[0].1)
    else
      assert forall i :: 1 <= i < |p| ==> p[i] == p[1..][i - 1];
      Get(p[1..], name)
  }

  /** `Get` on a list that starts with a known pair. */
  lemma GetCons(x: (string, string), p: Params, name: string)
    ensures Get([x] + p, name) == if x.0 == name then Some(x.1) else Get(p, name)
  {
    assert ([x] + p)[1..] == p;
  }

  /** The pairs of `p` with another name, in order. */
  function Remove(p: Params, name: string): (r: Params)
    ensures forall i :: 0 <= i < |r| ==> r[i].0 != name
    ensures forall k :: k != name ==> Get(r, k) == Get(p, k)
  {
    if |p| == 0 then []
    else
      var rest := Remove(p[1..], name);
      if p[0].0 == name then rest
      else
        forall k | k != name ensures Get([p[0]] + rest, k) == Get(p, k) {
          GetCons(p[0], rest, k);
        }
        [p[0]] + rest
  }

  /**
   * `params.set(name, value)`: the first pair with that name takes the value
   * and any later ones are dropped; a new name is appended at the end.
   */
  function Set(p: Params, name: string, value: string): (r: Params)
    decreases |p|
  {
    if |p| == 0 then [(name, value)]
    else if p[0].0 == name then [(name, value)] + Remove(p[1..], name)
    else [p[0]] + Set(p[1..], name, value)
  }

  /** After a `set`, the name reads as the new value and every other name as before. */
  lemma {:induction false} SetGet(p: Params, name: string, value: string, k: string)
    ensures Get(Set(p, name, value), k) == if k == name then Some(value) else Get(p, k)
    decreases |p|
  {
    if |p| == 0 {
    } else if p[0].0 == name {
      GetCons((name, value), Remove(p[1..], name), k);
      if k == name {
      } else {
        assert Get(p, k) == Get(p[1..], k);
      }
    } else {
      SetGet(p[1..], name, value, k);
      GetCons(p[0], Set(p[1..], name, value), k);
    }
  }

  /** A `set` of a name the query does not hold appends the pair at the end. */
  lemma {:induction false} SetNew(p: Params, name: string, value: string)
    requires forall i :: 0 <= i < |p| ==> p[i].0 != name
    ensures Set(p, name, value) == p + [(name, value)]
    decreases |p|
  {
    if |p| > 0 {
      SetNew(p[1..], name, value);
      assert p == [p[0]] + p[1..];
    }
  }

  /** No pair with that name follows another one. */
  predicate AtMostOnce(p: Params, name: string) {
    forall i, j :: 0 <= i < j < |p| && p[i].0 == name ==> p[j].0 != name
  }

  /** After a `set`, the name occurs once. */
  lemma {:induction false} SetUnique(p: Params, name: string, value: string)
    ensures AtMostOnce(Set(p, name, value), name)
    decreases |p|
  {
    var r := Set(p, name, value);
    if |p| > 0 && p[0].0 != name {
      SetUnique(p[1..], name, value);
      var rest := Set(p[1..], name, value);
      assert r == [p[0]] + rest;
      forall i, j | 0 <= i < j < |r| && r[i].0 == name ensures r[j].0 != name {
        assert i > 0 && r[i] == rest[i - 1] && r[j] == rest[j - 1];
      }
    } else if |p| > 0 {
      var rest := Remove(p[1..], name);
      assert forall i :: 1 <= i < |r| ==> r[i] == rest[i - 1];
    }
  }

  // ---------------------------------------------------------------- norm

  predicate IsUnderscore(c: char) {
    c == '_'
  }

  predicate IsUpperLetter(c: char) {
    'A' <= c <= 'Z'
  }

  /** `\s` of a regular expression, as a class of its own for the run collapsing below. */
  predicate IsBlank(c: char) {
    IsSpace(c)
  }

  /** What is left once the leading run of characters in the class `P` is dropped. */
  function DropRun(s: string, P: char -> bool): (r: string)
    ensures |r| <= |s| && r == s[|s| - |r|..]
    ensures |s| > 0 && P(s[0]) ==> |r| < |s|
    ensures r == [] || !P(r[0])
  {
    if |s| > 0 && P(s[0]) then DropRun(s[1..], P) else s
  }

  /** `s.replace(/X+/g, " ")` for the class `X` = `P`: every maximal run becomes one space. */
  function CollapseRuns(s: string, P: char -> bool): (r: string)
    ensures |r| <= |s|
    ensures forall i :: 0 <= i < |r| ==> r[i] == ' ' || !P(r[i])
    ensures s != [] ==> r != [] && r[0] == (if P(s[0]) then ' ' else s[0])
    ensures P(' ') ==> forall i :: 0 <= i < |r| - 1 ==> !(P(r[i]) && P(r[i + 1]))
    decreases |s|
  {
    if s == [] then []
    else if P(s[0]) then
      var rest := DropRun(s, P);
      var tail := CollapseRuns(rest, P);
      assert forall i :: 1 <= i < |tail| + 1 ==> ([' '] + tail)[i] == tail[i - 1];
      [' '] + tail
    else
      var tail := CollapseRuns(s[1..], P);
      assert forall i :: 1 <= i < |tail| + 1 ==> ([s[0]] + tail)[i] == tail[i - 1];
      [s[0]] + tail
  }

  /** Collapsing only ever brings in spaces: a class that holds neither the space nor any character of `s` holds nothing of the result. */
  lemma {:induction false} CollapseKeeps(s: string, P: char -> bool, Q: char -> bool)
    requires !Q(' ')
    requires forall i :: 0 <= i < |s| ==> !Q(s[i])
    ensures forall i :: 0 <= i < |CollapseRuns(s, P)| ==> !Q(CollapseRuns(s, P)[i])
    decreases |s|
  {
    if s != [] {
      var r := CollapseRuns(s, P);
      if P(s[0]) {
        var rest := DropRun(s, P);
        assert forall i :: 0 <= i < |rest| ==> rest[i] == s[|s| - |rest| + i];
        CollapseKeeps(rest, P, Q);
        assert r == [' '] + CollapseRuns(rest, P);
      } else {
        CollapseKeeps(s[1..], P, Q);
        assert r == [s[0]] + CollapseRuns(s[1..], P);
      }
    }
  }

  /** A string whose characters of the class `P` are lone spaces is left as it is. */
  lemma {:induction false} CollapseIdentity(s: string, P: char -> bool)
    requires forall i :: 0 <= i < |s| && P(s[i]) ==> s[i] == ' ' && (i + 1 < |s| ==> !P(s[i + 1]))
    ensures CollapseRuns(s, P) == s
    decreases |s|
  {
    if s != [] {
      if P(s[0]) {
        assert DropRun(s, P) == s[1..] by {
          if |s| > 1 {
            assert !P(s[1]);
            assert s[1..][0] == s[1];
          }
        }
      }
      CollapseIdentity(s[1..], P);
    }
  }

  /** `norm` of `urlPrefill.ts`: trim, lower-case, underscore runs to a space, whitespace runs to a single space. */
  function Norm(s: string): (r: string)
    ensures forall i :: 0 <= i < |r| ==> !IsUpperLetter(r[i]) && !IsUnderscore(r[i])
    ensures forall i :: 0 <= i < |r| ==> IsSpace(r[i]) ==> r[i] == ' '
    ensures forall i :: 0 <= i < |r| - 1 ==> !(r[i] == ' ' && r[i + 1] == ' ')
  {
    var lowered := Lower(Trim(s));
    var spaced := CollapseRuns(lowered, IsUnderscore);
    CollapseKeeps(lowered, IsUnderscore, IsUpperLetter);
    CollapseKeeps(spaced, IsBlank, IsUpperLetter);
    CollapseKeeps(spaced, IsBlank, IsUnderscore);
    CollapseRuns(spaced, IsBlank)
  }

  /** Normalising brings in nothing but spaces: every other character is the lower-case form of a character of the input. */
  lemma NormFromInput(s: string)
    ensures forall i :: 0 <= i < |Norm(s)| && Norm(s)[i] != ' ' ==> exists j :: 0 <= j < |s| && Norm(s)[i] == LowerChar(s[j])
  {
    var start := TrimSlice(s);
    var lowered := Lower(Trim(s));
    var outside := (c: char) => c != ' ' && c !in lowered;
    var spaced := CollapseRuns(lowered, IsUnderscore);
    CollapseKeeps(lowered, IsUnderscore, outside);
    CollapseKeeps(spaced, IsBlank, outside);
    assert Norm(s) == CollapseRuns(spaced, IsBlank);
    forall i | 0 <= i < |Norm(s)| && Norm(s)[i] != ' '
      ensures exists j :: 0 <= j < |s| && Norm(s)[i] == LowerChar(s[j])
    {
      assert !outside(Norm(s)[i]);
      var k :| 0 <= k < |lowered| && lowered[k] == Norm(s)[i];
      assert Trim(s)[k] == s[start + k];
    }
  }

  predicate Letters(s: string) {
    forall i :: 0 <= i < |s| ==> 'a' <= LowerChar(s[i]) <= 'z'
  }

  /** Every character of `l` is a lower-case letter except the space at `k`. */
  predicate LettersAround(l: string, k: int) {
    0 <= k < |l| && l[k] == ' ' && forall i :: 0 <= i < |l| && i != k ==> 'a' <= l[i] <= 'z'
  }

  lemma LowerTwoWords(x: string, y: string)
    requires Letters(x) && Letters(y)
    ensures Lower(x + " " + y) == Lower(x) + " " + Lower(y)
    ensures LettersAround(Lower(x + " " + y), |x|)
  {
    var l := Lower(x + " " + y);
    LowerAppend(x + " ", y);
    LowerAppend(x, " ");
    forall i | 0 <= i < |l| && i != |x| ensures 'a' <= l[i] <= 'z' {
      if i < |x| {
        assert l[i] == LowerChar(x[i]);
      } else {
        assert l[i] == LowerChar(y[i - |x| - 1]);
      }
    }
  }

  /** Two words of letters joined by one space are normalised to their lower-case forms. */
  lemma NormTwoWords(x: string, y: string)
    requires x != [] && y != [] && Letters(x) && Letters(y)
    ensures Norm(x + " " + y) == Lower(x) + " " + Lower(y)
  {
    var s := x + " " + y;
    assert s[0] == x[0] && s[|s| - 1] == y[|y| - 1];
    assert 'a' <= LowerChar(x[0]) <= 'z' && 'a' <= LowerChar(y[|y| - 1]) <= 'z';
    TrimIdentity(s);
    LowerTwoWords(x, y);
    LettersAroundCollapse(Lower(s), |x|);
  }

  /** One space between letters is neither an underscore run nor a longer whitespace run. */
  lemma LettersAroundCollapse(l: string, k: int)
    requires LettersAround(l, k) && k + 1 < |l|
    ensures CollapseRuns(l, IsUnderscore) == l
    ensures CollapseRuns(l, IsBlank) == l
  {
    assert CollapseRuns(l, IsUnderscore) == l by {
      assert forall i :: 0 <= i < |l| ==> !IsUnderscore(l[i]);
      CollapseIdentity(l, IsUnderscore);
    }
    assert CollapseRuns(l, IsBlank) == l by {
      assert forall i :: 0 <= i < |l| && i != k ==> !IsBlank(l[i]);
      assert !IsBlank(l[k + 1]);
      CollapseIdentity(l, IsBlank);
    }
  }

  /** The six area literals are two words of letters each. */
  lemma AreaNameWords(a: Area)
    ensures SuburbName(a.suburb) != [] && SideName(a.side) != []
    ensures Letters(SuburbName(a.suburb)) && Letters(SideName(a.side))
  {
  }

  lemma NormAreaName(a: Area)
    ensures Norm(AreaName(a)) == Lower(SuburbName(a.suburb)) + " " + Lower(SideName(a.side))
  {
    AreaNameWords(a);
    NormTwoWords(SuburbName(a.suburb), SideName(a.side));
  }

  /** No two areas have the same lower-case literal. */
  lemma LowerAreaNameInjective(a: Area, b: Area)
    requires Lower(AreaName(a)) == Lower(AreaName(b))
    ensures a == b
  {
    var la, lb := Lower(AreaName(a)), Lower(AreaName(b));
    assert |SuburbName(a.suburb)| == |SuburbName(b.suburb)|;
    assert a.suburb == b.suburb;
    var k := |SuburbName(a.suburb)| + 1;
    assert la[k] == LowerChar(SideName(a.side)[0]);
    assert lb[k] == LowerChar(SideName(b.side)[0]);
  }

  // ---------------------------------------------------------------- parseArea

  /** The first index of `c` in `s`. */
  function IndexOf(s: string, c: char): (r: Option<nat>)
    ensures r.Some? ==> r.value < |s| && s[r.value] == c && c !in s[..r.value]
    ensures r.None? <==> c !in s
  {
    if |s| == 0 then None
    else if s[0] == c then Some(0)
    else
      match IndexOf(s[1..], c)
      case None => None
      case Some(i) =>
        assert s[..i + 1] == [s[0]] + s[1..][..i];
        Some(i + 1)
  }

  /** `s.split(sep)`: the pieces between separators, empty ones included. */
  function Split(s: string, sep: char): (r: seq<string>)
    ensures |r| >= 1
    ensures forall i :: 0 <= i < |r| ==> sep !in r[i]
    decreases |s|
  {
    match IndexOf(s, sep)
    case None => [s]
    case Some(i) => [s[..i]] + Split(s[i + 1..], sep)
  }

  /** Joining the pieces with the separator gives the text back. */
  lemma {:induction false} SplitJoin(s: string, sep: char)
    ensures Join(Split(s, sep), [sep]) == s
    decreases |s|
  {
    match IndexOf(s, sep)
    case None =>
    case Some(i) =>
      var rest := Split(s[i + 1..], sep);
      SplitJoin(s[i + 1..], sep);
      assert s == s[..i] + [sep] + s[i + 1..];
      assert ([s[..i]] + rest)[1..] == rest;
  }

  /** Splitting a word, a separator and the rest. */
  lemma SplitCons(x: string, y: string, sep: char)
    requires sep !in x
    ensures Split(x + [sep] + y, sep) == [x] + Split(y, sep)
  {
    var s := x + [sep] + y;
    var i := IndexOf(s, sep);
    assert s[|x|] == sep;
    assert s[..|x|] == x;
    assert s[..|x|] == x && s[|x| + 1..] == y;
  }

  /** The non-empty pieces, in order. */
  function NonEmpty(parts: seq<string>): (r: seq<string>)
    ensures |r| <= |parts|
    ensures forall i :: 0 <= i < |r| ==> r[i] != []
  {
    if |parts| == 0 then []
    else if parts[0] == [] then NonEmpty(parts[1..])
    else [parts[0]] + NonEmpty(parts[1..])
  }

  /** The text `parseArea` matches: `norm(v)` with every hyphen turned into a space. */
  function AreaText(v: string): string {
    ReplaceChar(Norm(v), '-', ' ')
  }

  /** The words of the area text, empty pieces dropped. */
  function AreaWords(v: string): seq<string> {
    NonEmpty(Split(AreaText(v), ' '))
  }

  /** The area text keeps `norm`'s lower case. */
  lemma AreaTextLower(v: string)
    ensures forall i :: 0 <= i < |AreaText(v)| ==> !IsUpperLetter(AreaText(v)[i])
  {
  }

  const TYPE_ERROR := "TypeError: Cannot read properties of undefined (reading 'toUpperCase')"

  /** `w[0].toUpperCase() + w.slice(1)`; on an empty word `w[0]` is `undefined` and the call throws. */
  function Capitalize(w: string): (r: Result<string, string>)
    ensures r.Success? <==> w != []
    ensures r.Success? ==> Lower(r.value) == Lower(w)
  {
    if w == [] then Failure(TYPE_ERROR)
    else
      var c := [UpperChar(w[0])] + w[1..];
      assert forall i :: 0 <= i < |w| ==> Lower(c)[i] == Lower(w)[i] by {
        forall i | 0 <= i < |w| ensures Lower(c)[i] == Lower(w)[i] {
          if i == 0 {
            assert c[0] == UpperChar(w[0]);
          } else {
            assert c[i] == w[i];
          }
        }
      }
      Success(c)
  }

  /** The area whose normalised literal equals the area text. */
  function ExactArea(n: string): Option<Area> {
    Find(AREAS, (a: Area) => Norm(AreaName(a)) == n)
  }

  /** The area whose literal equals `cand` once both are lower-cased. */
  function AreaCaseless(cand: string): Option<Area> {
    Find(AREAS, (a: Area) => Lower(AreaName(a)) == Lower(cand))
  }

  /**
   * `parseArea` as the code is written: it splits on single spaces, so a hyphen
   * with spaces around it ("Malad - West") or a leading or trailing underscore
   * leaves an empty piece among the first two, and reading that piece's first
   * character throws.
   */
  function ParseAreaAsWritten(v: Option<string>): (r: Result<Option<Area>, string>)
    ensures r.Failure? ==> v.Some? && |Split(AreaText(v.value), ' ')| >= 2
  {
    if v.None? || v.value == "" then Success(None)
    else
      var n := AreaText(v.value);
      var exact := ExactArea(n);
      if exact.Some? then Success(exact)
      else
        var parts := Split(n, ' ');
        if |parts| < 2 then Success(None)
        else
          match (Capitalize(parts[0]), Capitalize(parts[1]))
          case (Success(c0), Success(c1)) => Success(AreaCaseless(c0 + " " + c1))
          case _ => Failure(TYPE_ERROR)
  }

  /** A leading separator splits off an empty piece. */
  lemma SplitLeadingSep(y: string, sep: char)
    ensures Split([sep] + y, sep) == [""] + Split(y, sep)
  {
    SplitCons("", y, sep);
    assert "" + [sep] + y == [sep] + y;
  }

  /** Two words with three spaces between them split into the words and two empty pieces. */
  lemma SplitThreeSpaces(x: string, y: string)
    requires ' ' !in x && ' ' !in y
    ensures Split(x + "   " + y, ' ') == [x, "", "", y]
  {
    var y2 := [' '] + ([' '] + y);
    assert Split(y2, ' ') == ["", "", y] by {
      assert Split(y, ' ') == [y];
      SplitLeadingSep(y, ' ');
      SplitLeadingSep([' '] + y, ' ');
    }
    assert x + "   " + y == x + [' '] + y2;
    SplitCons(x, y2, ' ');
  }

  /**
   * With no exact match, an empty second piece makes the written `parseArea`
   * throw; a hyphen with spaces around it ("Malad - West") leaves one.
   */
  lemma EmptySecondPieceThrows(v: string, parts: seq<string>)
    requires v != "" && ExactArea(AreaText(v)).None? && Split(AreaText(v), ' ') == parts
    requires |parts| >= 2 && parts[1] == []
    ensures ParseAreaAsWritten(Some(v)).Failure?
  {
  }

  /** Lower-casing a word of letters leaves only lower-case letters. */
  lemma LowerLetters(x: string)
    requires Letters(x)
    ensures forall i :: 0 <= i < |Lower(x)| ==> 'a' <= Lower(x)[i] <= 'z'
  {
    forall i | 0 <= i < |Lower(x)| ensures 'a' <= Lower(x)[i] <= 'z' {
      LowerAt(x, i);
    }
  }

  /** Every character of `l` is a lower-case letter except the " - " at `k`. */
  predicate HyphenAround(l: string, k: int) {
    0 <= k && k + 3 < |l| && l[k] == ' ' && l[k + 1] == '-' && l[k + 2] == ' ' &&
    forall i :: 0 <= i < |l| && (i < k || k + 2 < i) ==> 'a' <= l[i] <= 'z'
  }

  /** Neither collapse of `norm` changes a spaced hyphen between letters. */
  lemma HyphenAroundCollapse(l: string, k: int)
    requires HyphenAround(l, k)
    ensures CollapseRuns(l, IsUnderscore) == l
    ensures CollapseRuns(l, IsBlank) == l
  {
    assert CollapseRuns(l, IsUnderscore) == l by {
      assert forall i :: 0 <= i < |l| ==> !IsUnderscore(l[i]);
      CollapseIdentity(l, IsUnderscore);
    }
    assert CollapseRuns(l, IsBlank) == l by {
      assert forall i :: 0 <= i < |l| && i != k && i != k + 2 ==> !IsBlank(l[i]);
      CollapseIdentity(l, IsBlank);
    }
  }

  /** Two lower-case words around " - " have the spaced-hyphen shape. */
  lemma HyphenAroundWords(lx: string, ly: string)
    requires ly != []
    requires forall i :: 0 <= i < |lx| ==> 'a' <= lx[i] <= 'z'
    requires forall i :: 0 <= i < |ly| ==> 'a' <= ly[i] <= 'z'
    ensures HyphenAround(lx + " - " + ly, |lx|)
  {
    var l := lx + " - " + ly;
    forall i | 0 <= i < |l| && (i < |lx| || |lx| + 2 < i) ensures 'a' <= l[i] <= 'z' {
      if i < |lx| {
        assert l[i] == lx[i];
      } else {
        assert l[i] == ly[i - |lx| - 3];
      }
    }
  }

  lemma LowerAroundHyphen(x: string, y: string)
    ensures Lower(x + " - " + y) == Lower(x) + " - " + Lower(y)
  {
    LowerAppend(x + " - ", y);
    LowerAppend(x, " - ");
    assert Lower(" - ") == " - ";
  }

  lemma TrimAroundHyphen(x: string, y: string)
    requires x != [] && y != [] && Letters(x) && Letters(y)
    ensures Trim(x + " - " + y) == x + " - " + y
  {
    var s := x + " - " + y;
    assert s[0] == x[0] && s[|s| - 1] == y[|y| - 1];
    assert 'a' <= LowerChar(x[0]) <= 'z' && 'a' <= LowerChar(y[|y| - 1]) <= 'z';
    TrimIdentity(s);
  }

  lemma LowerWordsAroundHyphen(x: string, y: string)
    requires y != [] && Letters(x) && Letters(y)
    ensures HyphenAround(Lower(x) + " - " + Lower(y), |x|)
  {
    LowerLetters(x);
    LowerLetters(y);
    HyphenAroundWords(Lower(x), Lower(y));
  }

  /** `norm` lower-cases two words of letters around a spaced hyphen and keeps the rest. */
  lemma NormSpacedHyphenWords(x: string, y: string)
    requires x != [] && y != [] && Letters(x) && Letters(y)
    ensures Norm(x + " - " + y) == Lower(x) + " - " + Lower(y)
    ensures HyphenAround(Lower(x) + " - " + Lower(y), |x|)
  {
    TrimAroundHyphen(x, y);
    LowerAroundHyphen(x, y);
    LowerWordsAroundHyphen(x, y);
    HyphenAroundCollapse(Lower(x) + " - " + Lower(y), |x|);
  }

  /** Replacing the hyphen leaves the two words with three spaces between them. */
  lemma HyphenToSpaces(lx: string, ly: string)
    requires HyphenAround(lx + " - " + ly, |lx|)
    ensures ReplaceChar(lx + " - " + ly, '-', ' ') == lx + "   " + ly
  {
    var l := lx + " - " + ly;
    var r := ReplaceChar(l, '-', ' ');
    forall i | 0 <= i < |l| ensures r[i] == (lx + "   " + ly)[i] {
      if i < |lx| || |lx| + 2 < i {
        assert l[i] != '-';
      }
    }
  }

  /** A text with two spaces in a row is no area's normal form. */
  lemma NoExactDoubledSpace(n: string, k: int)
    requires 0 <= k && k + 1 < |n| && n[k] == ' ' && n[k + 1] == ' '
    ensures ExactArea(n).None?
  {
    forall a ensures Norm(AreaName(a)) != n {
      var m := Norm(AreaName(a));
      assert |m| != |n| || !(m[k] == ' ' && m[k + 1] == ' ');
    }
  }

  /**
   * Two words of letters around a spaced hyphen ("Malad - West", the form
   * people type) make the written `parseArea` throw.
   */
  lemma SpacedHyphenThrows(x: string, y: string)
    requires x != [] && y != [] && Letters(x) && Letters(y)
    ensures ParseAreaAsWritten(Some(x + " - " + y)).Failure?
  {
    var lx, ly := Lower(x), Lower(y);
    AreaTextSpacedHyphenWords(x, y);
    NoExactDoubledSpace(lx + "   " + ly, |lx|);
    SplitThreeSpaces(lx, ly);
    EmptySecondPieceThrows(x + " - " + y, [lx, "", "", ly]);
  }

  /** The area text of two words of letters around a spaced hyphen: the lower-case words, three spaces apart. */
  lemma AreaTextSpacedHyphenWords(x: string, y: string)
    requires x != [] && y != [] && Letters(x) && Letters(y)
    ensures AreaText(x + " - " + y) == Lower(x) + "   " + Lower(y)
    ensures ' ' !in Lower(x) && ' ' !in Lower(y)
  {
    NormSpacedHyphenWords(x, y);
    HyphenToSpaces(Lower(x), Lower(y));
    LowerLetters(x);
    LowerLetters(y);
  }

  /** The fallback of `parseArea`: the first two words, capitalised, compared without regard to case. */
  function FirstTwoWords(words: seq<string>): (r: Option<Area>)
    ensures r.Some? ==> |words| >= 2 && Lower(words[0] + " " + words[1]) == Lower(AreaName(r.value))
  {
    if |words| < 2 || words[0] == [] || words[1] == [] then None
    else
      var c0, c1 := Capitalize(words[0]).value, Capitalize(words[1]).value;
      LowerAppend(c0 + " ", c1);
      LowerAppend(c0, " ");
      LowerAppend(words[0] + " ", words[1]);
      LowerAppend(words[0], " ");
      AreaCaseless(c0 + " " + c1)
  }

  /**
   * `parseArea` as evidently intended: the same exact match, then the first two
   * non-empty words. It never throws.
   */
  function ParseArea(v: Option<string>): (r: Option<Area>)
    ensures r.Some? ==> v.Some? && v.value != ""
    ensures r.Some? ==>
      Norm(AreaName(r.value)) == AreaText(v.value) ||
      (|AreaWords(v.value)| >= 2 &&
       Lower(AreaWords(v.value)[0] + " " + AreaWords(v.value)[1]) == Lower(AreaName(r.value)))
  {
    if v.None? || v.value == "" then None
    else
      var exact := ExactArea(AreaText(v.value));
      if exact.Some? then exact else FirstTwoWords(AreaWords(v.value))
  }

  /** Wherever the written `parseArea` returns, the intended one returns the same. */
  lemma ParseAreaAgrees(v: Option<string>)
    requires ParseAreaAsWritten(v).Success?
    ensures ParseArea(v) == ParseAreaAsWritten(v).value
  {
    if v.Some? && v.value != "" && ExactArea(AreaText(v.value)).None? {
      var parts := Split(AreaText(v.value), ' ');
      if |parts| >= 2 {
        assert parts[0] != [] && parts[1] != [];
        NonEmptyFirstTwo(parts);
      } else {
        assert |NonEmpty(parts)| <= 1;
      }
    }
  }

  /** When the first two pieces are words, they are the first two non-empty pieces. */
  lemma NonEmptyFirstTwo(parts: seq<string>)
    requires |parts| >= 2 && parts[0] != [] && parts[1] != []
    ensures |NonEmpty(parts)| >= 2 && NonEmpty(parts)[0] == parts[0] && NonEmpty(parts)[1] == parts[1]
  {
    assert NonEmpty(parts) == [parts[0]] + NonEmpty(parts[1..]);
    assert parts[1..][0] == parts[1];
    assert NonEmpty(parts[1..]) == [parts[1]] + NonEmpty(parts[2..]);
  }

  /** "Malad West" in any case is the area Malad West. */
  lemma CaselessMaladWest(c0: string, c1: string)
    requires Lower(c0) == "malad" && Lower(c1) == "west"
    ensures AreaCaseless(c0 + " " + c1) == Some(Area(Malad, West))
  {
    assert Lower(c0 + " " + c1) == "malad west" by {
      LowerAppend(c0 + " ", c1);
      LowerAppend(c0, " ");
    }
    assert Lower(AreaName(Area(Malad, West))) == "malad west" by {
      LowerAppend("Malad" + " ", "West");
      LowerAppend("Malad", " ");
    }
    assert AREAS[0] == Area(Malad, West);
  }

  /** The intended `parseArea` reads the spaced hyphen as the area it names. */
  lemma SpacedHyphenParses()
    ensures ParseArea(Some("Malad - West")) == Some(Area(Malad, West))
  {
    assert "Malad" + " - " + "West" == "Malad - West";
    SpacedHyphenWordsParse("Malad", "West");
    LowerMaladWest();
    FirstTwoWordsMaladWest();
  }

  lemma LowerMaladWest()
    ensures Lower("Malad") == "malad" && Lower("West") == "west"
  {
    assert Lower("Malad")[0] == 'm';
    assert Lower("West")[0] == 'w';
  }

  /** The intended `parseArea` reads two words of letters around a spaced hyphen as those two words. */
  lemma SpacedHyphenWordsParse(x: string, y: string)
    requires x != [] && y != [] && Letters(x) && Letters(y)
    ensures ParseArea(Some(x + " - " + y)) == FirstTwoWords([Lower(x), Lower(y)])
  {
    var lx, ly := Lower(x), Lower(y);
    AreaTextSpacedHyphenWords(x, y);
    NoExactDoubledSpace(lx + "   " + ly, |lx|);
    SplitThreeSpaces(lx, ly);
    NonEmptyOfPieces(lx, ly);
    ParseAreaByWords(x + " - " + y, [lx, ly]);
  }

  lemma NonEmptyOfPieces(lx: string, ly: string)
    requires lx != [] && ly != []
    ensures NonEmpty([lx, "", "", ly]) == [lx, ly]
  {
    var p := [lx, "", "", ly];
    assert NonEmpty([ly]) == [ly] by {
      assert [ly][1..] == [];
    }
    assert NonEmpty(["", ly]) == [ly] by {
      assert ["", ly][1..] == [ly];
    }
    assert NonEmpty(["", "", ly]) == [ly] by {
      assert ["", "", ly][1..] == ["", ly];
    }
    assert p[1..] == ["", "", ly];
  }

  /** A value with no exact match is read from its first two words. */
  lemma ParseAreaByWords(v: string, words: seq<string>)
    requires v != "" && ExactArea(AreaText(v)).None? && AreaWords(v) == words
    ensures ParseArea(Some(v)) == FirstTwoWords(words)
  {
  }

  lemma FirstTwoWordsMaladWest()
    ensures FirstTwoWords(["malad", "west"]) == Some(Area(Malad, West))
  {
    var w := ["malad", "west"];
    LowerIdentity("malad");
    LowerIdentity("west");
    CaselessMaladWest(Capitalize(w[0]).value, Capitalize(w[1]).value);
  }

  /** The lower-case words tell the area: the first letter the suburb, the one after the space the side. */
  lemma LowerWordsInjective(a: Area, b: Area)
    requires Lower(SuburbName(a.suburb)) + " " + Lower(SideName(a.side)) ==
             Lower(SuburbName(b.suburb)) + " " + Lower(SideName(b.side))
    ensures a == b
  {
    var sa, sb := SuburbName(a.suburb), SuburbName(b.suburb);
    var da, db := SideName(a.side), SideName(b.side);
    var x := Lower(sa) + " " + Lower(da);
    var y := Lower(sb) + " " + Lower(db);
    LowerAt(sa, 0);
    LowerAt(sb, 0);
    assert x[0] == LowerChar(sa[0]) && y[0] == LowerChar(sb[0]);
    assert a.suburb == b.suburb;
    var k := |sa| + 1;
    LowerAt(da, 0);
    LowerAt(db, 0);
    assert x[k] == LowerChar(da[0]) && y[k] == LowerChar(db[0]);
  }

  /** No two areas have the same normalised literal. */
  lemma NormAreaNameInjective(a: Area, b: Area)
    requires Norm(AreaName(a)) == Norm(AreaName(b))
    ensures a == b
  {
    NormAreaName(a);
    NormAreaName(b);
    LowerWordsInjective(a, b);
  }

  /** Any spelling whose area text is an area's normalised literal parses to that area. */
  lemma ParseAreaExact(v: string, a: Area)
    requires v != "" && AreaText(v) == Norm(AreaName(a))
    ensures ParseArea(Some(v)) == Some(a)
  {
    var n := AreaText(v);
    AreasComplete(a);
    var i :| 0 <= i < |AREAS| && AREAS[i] == a;
    var e := ExactArea(n);
    assert e.Some?;
    NormAreaNameInjective(a, e.value);
  }

  /** No area's normalised literal holds a hyphen. */
  lemma AreaNameNoHyphen(a: Area)
    ensures forall i :: 0 <= i < |Norm(AreaName(a))| ==> Norm(AreaName(a))[i] != '-'
  {
    NormAreaName(a);
    AreaNameWords(a);
    var n := Norm(AreaName(a));
    forall i | 0 <= i < |n| ensures n[i] != '-' {
      if i < |SuburbName(a.suburb)| {
        assert n[i] == LowerChar(SuburbName(a.suburb)[i]);
      } else if i > |SuburbName(a.suburb)| {
        assert n[i] == LowerChar(SideName(a.side)[i - |SuburbName(a.suburb)| - 1]);
      }
    }
  }

  /** An area's own literal parses back to it. */
  lemma ParseAreaName(a: Area)
    ensures ParseArea(Some(AreaName(a))) == Some(a)
  {
    AreaNameNoHyphen(a);
    ReplaceAbsent(Norm(AreaName(a)), '-', ' ');
    assert AreaText(AreaName(a)) == Norm(AreaName(a));
    ParseAreaExact(AreaName(a), a);
  }

  // ---------------------------------------------------------------- parseEnum, parseNum

  /** `parseEnum(v, allowed)`: the trimmed value when it is one of `allowed`. */
  function ParseEnum(v: Option<string>, allowed: seq<string>): (r: Option<string>)
    ensures r.Some? <==> v.Some? && v.value != "" && Trim(v.value) in allowed
    ensures r.Some? ==> r.value in allowed && r.value == Trim(v.value)
  {
    if v.None? || v.value == "" then None
    else
      var n := Trim(v.value);
      if n in allowed then Some(n) else None
  }

  const BHK_PARAM_VALUES: seq<string> := ["1", "2"]
  const FURNISHING_PARAM_VALUES: seq<string> := ["F", "S", "U"]
  const MOVE_IN_PARAM_VALUES: seq<string> := ["Immediate", "7", "15", "30+"]
  const PROFILE_PARAM_VALUES: seq<string> := ["Family", "Bachelor", "Company"]

  /** The `bhk` parameter: only "1" and "2" are read. */
  function ParseBhk(v: Option<string>): (r: Option<Bhk>)
    ensures r.Some? ==> r.value == One || r.value == Two
    ensures r.Some? <==> ParseEnum(v, BHK_PARAM_VALUES).Some?
  {
    match ParseEnum(v, BHK_PARAM_VALUES)
    case None => None
    case Some(code) => BhkFromCode(code)
  }

  function ParseFurnishing(v: Option<string>): (r: Option<Furnishing>)
    ensures r.Some? <==> ParseEnum(v, FURNISHING_PARAM_VALUES).Some?
    ensures r.Some? ==> FurnishingCode(r.value) == Trim(v.value)
  {
    match ParseEnum(v, FURNISHING_PARAM_VALUES)
    case None => None
    case Some(code) => FurnishingFromCode(code)
  }

  function ParseMoveIn(v: Option<string>): (r: Option<MoveIn>)
    ensures r.Some? <==> ParseEnum(v, MOVE_IN_PARAM_VALUES).Some?
    ensures r.Some? ==> MoveInCode(r.value) == Trim(v.value)
  {
    match ParseEnum(v, MOVE_IN_PARAM_VALUES)
    case None => None
    case Some(code) => MoveInFromCode(code)
  }

  function ParseProfile(v: Option<string>): (r: Option<Profile>)
    ensures r.Some? <==> ParseEnum(v, PROFILE_PARAM_VALUES).Some?
    ensures r.Some? ==> ProfileCode(r.value) == Trim(v.value)
  {
    match ParseEnum(v, PROFILE_PARAM_VALUES)
    case None => None
    case Some(code) => ProfileFromCode(code)
  }

  /**
   * `Number(s)` on the forms this model reads: a blank string is 0, an
   * optionally signed run of decimal digits is its value, and anything else is
   * not a finite number.
   */
  function JsNumber(s: string): (r: Option<int>)
    ensures Trim(s) == "" ==> r == Some(0)
    ensures AllDigits(Trim(s)) ==> r == Some(DigitsValue(Trim(s)))
  {
    var t := Trim(s);
    if t == "" then Some(0)
    else if t[0] == '-' && |t| > 1 && AllDigits(t[1..]) then Some(0 - DigitsValue(t[1..]))
    else if t[0] == '+' && |t| > 1 && AllDigits(t[1..]) then Some(DigitsValue(t[1..]))
    else if AllDigits(t) then Some(DigitsValue(t))
    else None
  }

  /** `Number(String(n)) === n` */
  lemma JsNumberOfString(n: int)
    ensures JsNumber(IntToString(n)) == Some(n)
  {
    var s := IntToString(n);
    NatToStringRoundTrip(if n < 0 then -n else n);
    assert !IsSpace(s[0]) && !IsSpace(s[|s| - 1]) by {
      if n < 0 {
        assert s[1..] == NatToString(-n);
        assert s[|s| - 1] == s[1..][|s| - 2];
      }
    }
    TrimIdentity(s);
    if n < 0 {
      assert s[1..] == NatToString(-n);
    }
  }

  function Min(a: int, b: int): int { if a <= b then a else b }
  function Max(a: int, b: int): int { if a >= b then a else b }

  /** `Math.max(lo, Math.min(hi, n))` */
  function Clamp(n: int, lo: int, hi: int): (r: int)
    ensures lo <= hi ==> lo <= r <= hi
    ensures lo <= n <= hi ==> r == n
    ensures n < lo ==> r == lo
    ensures lo <= hi && hi < n ==> r == hi
  {
    Max(lo, Min(hi, n))
  }

  /** `parseNum(v, lo, hi)`: a present, finite number, clamped into `[lo, hi]`. */
  function ParseNum(v: Option<string>, lo: int, hi: int): (r: Option<int>)
    ensures r.Some? <==> v.Some? && v.value != "" && JsNumber(v.value).Some?
    ensures r.Some? ==> r.value == Clamp(JsNumber(v.value).value, lo, hi)
    ensures r.Some? && lo <= hi ==> lo <= r.value <= hi
  {
    if v.None? || v.value == "" then None
    else
      match JsNumber(v.value)
      case None => None
      case Some(n) => Some(Clamp(n, lo, hi))
  }

  // ---------------------------------------------------------------- parsePrefillFromUrl

  const MIN_PARAM_K := 10
  const MAX_PARAM_K := 300

  /** Every parameter name the prefill reads. */
  const PREFILL_KEYS: seq<string> :=
    ["area", "locality", "bhk", "furnishing", "moveIn", "profile", "min", "max", "notes", "openForm", "scroll"]

  datatype PrefillResult = PrefillResult(patch: Draft, autoOpen: bool, autoScroll: bool)

  /** A query value JavaScript reads as true: present and not empty. */
  predicate Truthy(v: Option<string>) {
    v.Some? && v.value != ""
  }

  /** The prefill once the area parameter has been read as `area`. */
  function PrefillWith(p: Params, area: Option<Area>): (r: PrefillResult)
    ensures r.patch.area == area
    ensures r.patch.name.None? && r.patch.phone.None? && r.patch.prefillTs.None?
    ensures r.patch.locality.Some? ==> r.patch.locality.value != [] && Get(p, "locality") == r.patch.locality
    ensures r.patch.notes.Some? ==> r.patch.notes.value != [] && Get(p, "notes") == r.patch.notes
    ensures r.patch.bhk.Some? ==> r.patch.bhk.value == One || r.patch.bhk.value == Two
    ensures r.patch.budgetMinK.Some? ==> MIN_PARAM_K <= r.patch.budgetMinK.value <= MAX_PARAM_K
    ensures r.patch.budgetMaxK.Some? ==> MIN_PARAM_K <= r.patch.budgetMaxK.value <= MAX_PARAM_K
    ensures r.autoOpen <==> Get(p, "openForm") == Some("1")
    ensures r.autoScroll <==> Get(p, "scroll") == Some("1") || r.autoOpen
  {
    var locality := Get(p, "locality");
    var notes := Get(p, "notes");
    var patch := Draft(
      name := None, phone := None, area := area,
      budgetMinK := ParseNum(Get(p, "min"), MIN_PARAM_K, MAX_PARAM_K),
      budgetMaxK := ParseNum(Get(p, "max"), MIN_PARAM_K, MAX_PARAM_K),
      bhk := ParseBhk(Get(p, "bhk")),
      furnishing := ParseFurnishing(Get(p, "furnishing")),
      moveIn := ParseMoveIn(Get(p, "moveIn")),
      profile := ParseProfile(Get(p, "profile")),
      locality := if Truthy(locality) then locality else None,
      notes := if Truthy(notes) then notes else None,
      prefillTs := None);
    var autoOpen := Get(p, "openForm") == Some("1");
    PrefillResult(patch, autoOpen, Get(p, "scroll") == Some("1") || autoOpen)
  }

  /** `parsePrefillFromUrl(url)` with the intended `parseArea`: it cannot throw. */
  function Prefill(p: Params): (r: PrefillResult)
    ensures r.patch.area == ParseArea(Get(p, "area"))
  {
    PrefillWith(p, ParseArea(Get(p, "area")))
  }

  /** `parsePrefillFromUrl(url)` as written: the exception of `parseArea` escapes. */
  function PrefillAsWritten(p: Params): (r: Result<PrefillResult, string>)
    ensures r.Failure? <==> ParseAreaAsWritten(Get(p, "area")).Failure?
  {
    match ParseAreaAsWritten(Get(p, "area"))
    case Failure(e) => Failure(e)
    case Success(area) => Success(PrefillWith(p, area))
  }

  /** Wherever the written parser returns, it returns what the intended one does. */
  lemma PrefillAgrees(p: Params)
    requires PrefillAsWritten(p).Success?
    ensures PrefillAsWritten(p).value == Prefill(p)
  {
    ParseAreaAgrees(Get(p, "area"));
  }

  /** A link whose only parameter is `area=Malad - West` makes the written parser throw. */
  lemma PrefillThrowsOnSpacedHyphen()
    ensures PrefillAsWritten([("area", "Malad - West")]).Failure?
    ensures Prefill([("area", "Malad - West")]).patch.area == Some(Area(Malad, West))
  {
    assert "Malad" + " - " + "West" == "Malad - West";
    SpacedHyphenThrows("Malad", "West");
    SpacedHyphenParses();
  }

  /** A key is in the patch only when its parameter was present (and parsed). */
  lemma PrefillNeedsParams(p: Params)
    ensures var d := Prefill(p).patch;
            (d.area.Some? ==> Get(p, "area").Some?) && (d.bhk.Some? ==> Get(p, "bhk").Some?) &&
            (d.furnishing.Some? ==> Get(p, "furnishing").Some?) && (d.moveIn.Some? ==> Get(p, "moveIn").Some?) &&
            (d.profile.Some? ==> Get(p, "profile").Some?) && (d.budgetMinK.Some? ==> Get(p, "min").Some?) &&
            (d.budgetMaxK.Some? ==> Get(p, "max").Some?)
  {
  }

  /** The digits' value read by the number parser, given the value of all but the last digit. */
  lemma DigitsValueStep(s: string, c: char, v: nat)
    requires AllDigits(s) && IsDigit(c) && DigitsValue(s) == v
    ensures AllDigits(s + [c]) && DigitsValue(s + [c]) == 10 * v + DigitValue(c)
  {
    assert (s + [c])[..|s|] == s;
  }

  /** `Number` reads a plain run of decimal digits as its value. */
  lemma JsNumberDigits(s: string)
    requires s != "" && AllDigits(s)
    ensures JsNumber(s) == Some(DigitsValue(s))
  {
    assert IsDigit(s[0]) && IsDigit(s[|s| - 1]);
    TrimIdentity(s);
  }

  /** A plain decimal literal within the bounds is read as itself. */
  lemma ParseNumLiteral(s: string, n: nat)
    requires s != "" && AllDigits(s) && DigitsValue(s) == n && MIN_PARAM_K <= n <= MAX_PARAM_K
    ensures ParseNum(Some(s), MIN_PARAM_K, MAX_PARAM_K) == Some(n)
  {
    JsNumberDigits(s);
  }

  lemma ParseNum250()
    ensures ParseNum(Some("250"), MIN_PARAM_K, MAX_PARAM_K) == Some(250)
  {
    DigitsValueStep("", '2', 0);
    assert "" + ['2'] == "2";
    DigitsValueStep("2", '5', 2);
    assert "2" + ['5'] == "25";
    DigitsValueStep("25", '0', 25);
    assert "25" + ['0'] == "250";
    ParseNumLiteral("250", 250);
  }

  lemma ParseNum20()
    ensures ParseNum(Some("20"), MIN_PARAM_K, MAX_PARAM_K) == Some(20)
  {
    DigitsValueStep("", '2', 0);
    assert "" + ['2'] == "2";
    DigitsValueStep("2", '0', 2);
    assert "2" + ['0'] == "20";
    ParseNumLiteral("20", 20);
  }

  /** The two bounds are clamped one by one: nothing orders them. */
  lemma PrefillDoesNotOrderBudget()
    ensures var d := Prefill([("min", "250"), ("max", "20")]).patch;
            d.budgetMinK == Some(250) && d.budgetMaxK == Some(20)
  {
    var p: Params := [("min", "250"), ("max", "20")];
    assert Get(p, "min") == Some("250");
    assert Get(p, "max") == Some("20");
    ParseNum250();
    ParseNum20();
  }

  /** The area and locality step of `parsePrefillFromUrl`. */
  method ReadPlace(p: Params, patch: Draft) returns (patch': Draft)
    ensures patch' == patch.(area := Pick(patch.area, ParseArea(Get(p, "area"))),
                             locality := if Truthy(Get(p, "locality")) then Get(p, "locality") else patch.locality)
  {
    patch' := patch;
    var area := ParseArea(Get(p, "area"));
    if area.Some? { patch' := patch'.(area := area); }
    var locality := Get(p, "locality");
    if Truthy(locality) { patch' := patch'.(locality := locality); }
  }

  /** The bhk, furnishing, move-in and profile step. */
  method ReadChoices(p: Params, patch: Draft) returns (patch': Draft)
    ensures patch' == patch.(bhk := Pick(patch.bhk, ParseBhk(Get(p, "bhk"))),
                             furnishing := Pick(patch.furnishing, ParseFurnishing(Get(p, "furnishing"))),
                             moveIn := Pick(patch.moveIn, ParseMoveIn(Get(p, "moveIn"))),
                             profile := Pick(patch.profile, ParseProfile(Get(p, "profile"))))
  {
    patch' := patch;
    var bhk := ParseBhk(Get(p, "bhk"));
    if bhk.Some? { patch' := patch'.(bhk := bhk); }
    var furnishing := ParseFurnishing(Get(p, "furnishing"));
    if furnishing.Some? { patch' := patch'.(furnishing := furnishing); }
    var moveIn := ParseMoveIn(Get(p, "moveIn"));
    if moveIn.Some? { patch' := patch'.(moveIn := moveIn); }
    var profile := ParseProfile(Get(p, "profile"));
    if profile.Some? { patch' := patch'.(profile := profile); }
  }

  /** The budget step: each bound on its own. */
  method ReadBudget(p: Params, patch: Draft) returns (patch': Draft)
    ensures patch' == patch.(budgetMinK := Pick(patch.budgetMinK, ParseNum(Get(p, "min"), MIN_PARAM_K, MAX_PARAM_K)),
                             budgetMaxK := Pick(patch.budgetMaxK, ParseNum(Get(p, "max"), MIN_PARAM_K, MAX_PARAM_K)))
  {
    patch' := patch;
    var min := ParseNum(Get(p, "min"), MIN_PARAM_K, MAX_PARAM_K);
    var max := ParseNum(Get(p, "max"), MIN_PARAM_K, MAX_PARAM_K);
    if min.Some? { patch' := patch'.(budgetMinK := min); }
    if max.Some? { patch' := patch'.(budgetMaxK := max); }
  }

  /** The `parsePrefillFromUrl` procedure: it fills an empty patch key by key. */
  method ParsePrefillFromUrl(url: Url) returns (r: PrefillResult)
    ensures r == Prefill(url.params)
  {
    var p := url.params;
    var patch := EmptyPatch;
    patch := ReadPlace(p, patch);
    patch := ReadChoices(p, patch);
    patch := ReadBudget(p, patch);
    var notes := Get(p, "notes");
    if Truthy(notes) { patch := patch.(notes := notes); }
    var autoOpen := Get(p, "openForm") == Some("1");
    var autoScroll := Get(p, "scroll") == Some("1") || autoOpen;
    r := PrefillResult(patch, autoOpen, autoScroll);
  }

  // ---------------------------------------------------------------- buildShareLink

  /** `q.set(name, v)` when the draft has a value `v` for `name`, else nothing. */
  function SetOpt(p: Params, name: string, v: Option<string>): Params {
    if v.Some? then Set(p, name, v.value) else p
  }

  lemma SetOptGet(p: Params, name: string, v: Option<string>, k: string)
    ensures Get(SetOpt(p, name, v), k) == if k == name && v.Some? then v else Get(p, k)
  {
    if v.Some? {
      SetGet(p, name, v.value, k);
    }
  }

  /** The value the share link writes for each field, if it writes one. */
  function AreaValue(d: Draft): Option<string> {
    if d.area.Some? then Some(AreaName(d.area.value)) else None
  }

  /** The locality is written trimmed, and only when something is left. */
  function LocalityValue(d: Draft): Option<string> {
    if d.locality.Some? && Trim(d.locality.value) != "" then Some(Trim(d.locality.value)) else None
  }

  function BhkValue(d: Draft): Option<string> {
    if d.bhk.Some? then Some(BhkCode(d.bhk.value)) else None
  }

  /** Budgets are integers here, so `Math.round` leaves them as they are. */
  function MinValue(d: Draft): Option<string> {
    if d.budgetMinK.Some? then Some(IntToString(d.budgetMinK.value)) else None
  }

  function MaxValue(d: Draft): Option<string> {
    if d.budgetMaxK.Some? then Some(IntToString(d.budgetMaxK.value)) else None
  }

  function FurnishingValue(d: Draft): Option<string> {
    if d.furnishing.Some? then Some(FurnishingCode(d.furnishing.value)) else None
  }

  function MoveInValue(d: Draft): Option<string> {
    if d.moveIn.Some? then Some(MoveInCode(d.moveIn.value)) else None
  }

  function ProfileValue(d: Draft): Option<string> {
    if d.profile.Some? then Some(ProfileCode(d.profile.value)) else None
  }

  /** What the share link carries under each name the draft can fill. */
  function ShareValue(d: Draft, k: string): Option<string> {
    if k == "area" then AreaValue(d)
    else if k == "locality" then LocalityValue(d)
    else if k == "bhk" then BhkValue(d)
    else if k == "min" then MinValue(d)
    else if k == "max" then MaxValue(d)
    else if k == "furnishing" then FurnishingValue(d)
    else if k == "moveIn" then MoveInValue(d)
    else if k == "profile" then ProfileValue(d)
    else None
  }

  /** The share link's query: the base query with the draft's fields written over it in order, then `openForm=1`. */
  function ShareParams(p: Params, d: Draft): Params {
    var p1 := SetOpt(p, "area", AreaValue(d));
    var p2 := SetOpt(p1, "locality", LocalityValue(d));
    var p3 := SetOpt(p2, "bhk", BhkValue(d));
    var p4 := SetOpt(p3, "min", MinValue(d));
    var p5 := SetOpt(p4, "max", MaxValue(d));
    var p6 := SetOpt(p5, "furnishing", FurnishingValue(d));
    var p7 := SetOpt(p6, "moveIn", MoveInValue(d));
    var p8 := SetOpt(p7, "profile", ProfileValue(d));
    Set(p8, "openForm", "1")
  }

  /**
   * Every name of the share link reads as the draft's value when it has one,
   * `openForm` reads as "1", and every other name keeps its base value.
   */
  lemma ShareParamsGet(p: Params, d: Draft, k: string)
    ensures Get(ShareParams(p, d), k) ==
      if k == "openForm" then Some("1")
      else if ShareValue(d, k).Some? then ShareValue(d, k)
      else Get(p, k)
  {
    var p1 := SetOpt(p, "area", AreaValue(d));
    var p2 := SetOpt(p1, "locality", LocalityValue(d));
    var p3 := SetOpt(p2, "bhk", BhkValue(d));
    var p4 := SetOpt(p3, "min", MinValue(d));
    var p5 := SetOpt(p4, "max", MaxValue(d));
    var p6 := SetOpt(p5, "furnishing", FurnishingValue(d));
    var p7 := SetOpt(p6, "moveIn", MoveInValue(d));
    var p8 := SetOpt(p7, "profile", ProfileValue(d));
    SetOptGet(p, "area", AreaValue(d), k);
    SetOptGet(p1, "locality", LocalityValue(d), k);
    SetOptGet(p2, "bhk", BhkValue(d), k);
    SetOptGet(p3, "min", MinValue(d), k);
    SetOptGet(p4, "max", MaxValue(d), k);
    SetOptGet(p5, "furnishing", FurnishingValue(d), k);
    SetOptGet(p6, "moveIn", MoveInValue(d), k);
    SetOptGet(p7, "profile", ProfileValue(d), k);
    SetGet(p8, "openForm", "1", k);
  }

  /** `buildShareLink(baseUrl, pathname, draft)` */
  function ShareLink(base: Url, pathname: string, d: Draft): Url {
    Url(base.origin, pathname, ShareParams(base.params, d))
  }

  /** The `buildShareLink` procedure: it sets the parameters on the URL one by one. */
  method BuildShareLink(base: Url, pathname: string, d: Draft) returns (r: Url)
    ensures r == ShareLink(base, pathname, d)
  {
    var q := base.params;
    ghost var e := q;
    e := SetOpt(e, "area", AreaValue(d));
    if d.area.Some? { q := Set(q, "area", AreaName(d.area.value)); }
    assert q == e;
    e := SetOpt(e, "locality", LocalityValue(d));
    if d.locality.Some? && Trim(d.locality.value) != "" { q := Set(q, "locality", Trim(d.locality.value)); }
    assert q == e;
    e := SetOpt(e, "bhk", BhkValue(d));
    if d.bhk.Some? { q := Set(q, "bhk", BhkCode(d.bhk.value)); }
    assert q == e;
    e := SetOpt(e, "min", MinValue(d));
    if d.budgetMinK.Some? { q := Set(q, "min", IntToString(d.budgetMinK.value)); }
    assert q == e;
    e := SetOpt(e, "max", MaxValue(d));
    if d.budgetMaxK.Some? { q := Set(q, "max", IntToString(d.budgetMaxK.value)); }
    assert q == e;
    e := SetOpt(e, "furnishing", FurnishingValue(d));
    if d.furnishing.Some? { q := Set(q, "furnishing", FurnishingCode(d.furnishing.value)); }
    assert q == e;
    e := SetOpt(e, "moveIn", MoveInValue(d));
    if d.moveIn.Some? { q := Set(q, "moveIn", MoveInCode(d.moveIn.value)); }
    assert q == e;
    e := SetOpt(e, "profile", ProfileValue(d));
    if d.profile.Some? { q := Set(q, "profile", ProfileCode(d.profile.value)); }
    assert q == e;
    q := Set(q, "openForm", "1");
    r := Url(base.origin, pathname, q);
  }

  /** What each parameter of the share link reads as, when the base query has none of the prefill's names. */
  lemma ShareLinkValues(p: Params, d: Draft)
    requires forall k :: k in PREFILL_KEYS ==> Get(p, k).None?
    ensures var r := ShareParams(p, d);
      Get(r, "area") == AreaValue(d) && Get(r, "locality") == LocalityValue(d) &&
      Get(r, "bhk") == BhkValue(d) && Get(r, "min") == MinValue(d) && Get(r, "max") == MaxValue(d) &&
      Get(r, "furnishing") == FurnishingValue(d) && Get(r, "moveIn") == MoveInValue(d) &&
      Get(r, "profile") == ProfileValue(d) && Get(r, "notes") == None &&
      Get(r, "openForm") == Some("1") && Get(r, "scroll") == None
  {
    assert Get(p, "area").None? && Get(p, "locality").None? && Get(p, "bhk").None?;
    assert Get(p, "min").None? && Get(p, "max").None? && Get(p, "furnishing").None?;
    assert Get(p, "moveIn").None? && Get(p, "profile").None? && Get(p, "notes").None?;
    assert Get(p, "scroll").None?;
    ShareParamsGet(p, d, "area");
    ShareParamsGet(p, d, "locality");
    ShareParamsGet(p, d, "bhk");
    ShareParamsGet(p, d, "min");
    ShareParamsGet(p, d, "max");
    ShareParamsGet(p, d, "furnishing");
    ShareParamsGet(p, d, "moveIn");
    ShareParamsGet(p, d, "profile");
    ShareParamsGet(p, d, "notes");
    ShareParamsGet(p, d, "openForm");
    ShareParamsGet(p, d, "scroll");
  }

  /** Each code the share link writes is read back by the matching enum parser. */
  lemma FurnishingCodeParsesBack(f: Furnishing)
    ensures ParseFurnishing(Some(FurnishingCode(f))) == Some(f)
  {
    TrimIdentity(FurnishingCode(f));
  }

  lemma MoveInCodeParsesBack(m: MoveIn)
    ensures ParseMoveIn(Some(MoveInCode(m))) == Some(m)
  {
    TrimIdentity(MoveInCode(m));
  }

  lemma ProfileCodeParsesBack(pr: Profile)
    ensures ParseProfile(Some(ProfileCode(pr))) == Some(pr)
  {
    TrimIdentity(ProfileCode(pr));
  }

  /** A code that neither starts nor ends with whitespace is read as itself, when it is allowed. */
  lemma ParseEnumCode(c: string, allowed: seq<string>)
    requires c != "" && !IsSpace(c[0]) && !IsSpace(c[|c| - 1])
    ensures c in allowed ==> ParseEnum(Some(c), allowed) == Some(c)
    ensures c !in allowed ==> ParseEnum(Some(c), allowed) == None
  {
    TrimIdentity(c);
  }

  /** A bhk code is read back exactly when it is "1" or "2". */
  lemma BhkCodeParsesBack(b: Bhk)
    ensures ParseBhk(Some(BhkCode(b))) == if b == One || b == Two then Some(b) else None
  {
    match b
    case One =>
      assert "1" in BHK_PARAM_VALUES;
      ParseEnumCode("1", BHK_PARAM_VALUES);
    case Two =>
      assert "2" in BHK_PARAM_VALUES;
      ParseEnumCode("2", BHK_PARAM_VALUES);
    case Three =>
      assert "3" !in BHK_PARAM_VALUES;
      ParseEnumCode("3", BHK_PARAM_VALUES);
    case FourPlus =>
      assert "4+" !in BHK_PARAM_VALUES;
      ParseEnumCode("4+", BHK_PARAM_VALUES);
  }

  /** Each value the share link writes is read back by the prefill's parser for that name. */
  lemma AreaValueReadBack(d: Draft)
    ensures ParseArea(AreaValue(d)) == d.area
  {
    if d.area.Some? { ParseAreaName(d.area.value); }
  }

  lemma BhkValueReadBack(d: Draft)
    ensures ParseBhk(BhkValue(d)) == if d.bhk == Some(One) || d.bhk == Some(Two) then d.bhk else None
  {
    if d.bhk.Some? { BhkCodeParsesBack(d.bhk.value); }
  }

  lemma EnumValuesReadBack(d: Draft)
    ensures ParseFurnishing(FurnishingValue(d)) == d.furnishing
    ensures ParseMoveIn(MoveInValue(d)) == d.moveIn
    ensures ParseProfile(ProfileValue(d)) == d.profile
  {
    if d.furnishing.Some? { FurnishingCodeParsesBack(d.furnishing.value); }
    if d.moveIn.Some? { MoveInCodeParsesBack(d.moveIn.value); }
    if d.profile.Some? { ProfileCodeParsesBack(d.profile.value); }
  }

  /** A budget bound is read back clamped into `[10, 300]`. */
  lemma BudgetValueReadBack(k: Option<int>)
    ensures ParseNum(if k.Some? then Some(IntToString(k.value)) else None, MIN_PARAM_K, MAX_PARAM_K) ==
            if k.Some? then Some(Clamp(k.value, MIN_PARAM_K, MAX_PARAM_K)) else None
  {
    if k.Some? { JsNumberOfString(k.value); }
  }

  /** The prefill's reading of a query, field by field. */
  lemma PrefillFields(q: Params)
    ensures var r := Prefill(q);
      r.patch.area == ParseArea(Get(q, "area")) &&
      r.patch.locality == (if Truthy(Get(q, "locality")) then Get(q, "locality") else None) &&
      r.patch.bhk == ParseBhk(Get(q, "bhk")) &&
      r.patch.furnishing == ParseFurnishing(Get(q, "furnishing")) &&
      r.patch.moveIn == ParseMoveIn(Get(q, "moveIn")) &&
      r.patch.profile == ParseProfile(Get(q, "profile")) &&
      r.patch.budgetMinK == ParseNum(Get(q, "min"), MIN_PARAM_K, MAX_PARAM_K) &&
      r.patch.budgetMaxK == ParseNum(Get(q, "max"), MIN_PARAM_K, MAX_PARAM_K) &&
      r.patch.notes == (if Truthy(Get(q, "notes")) then Get(q, "notes") else None)
  {
  }

  /**
   * Reading a share link back: without prefill names in the base query, the
   * prefill sees the draft's area, a trimmed non-blank locality, a bhk of 1 or
   * 2, the three enums, each budget bound clamped into `[10, 300]`, no notes,
   * and both flags set.
   */
  lemma ShareLinkReadBack(base: Url, pathname: string, d: Draft)
    requires forall k :: k in PREFILL_KEYS ==> Get(base.params, k).None?
    ensures var r := Prefill(ShareLink(base, pathname, d).params);
      r.patch.area == d.area &&
      r.patch.locality == (if d.locality.Some? && Trim(d.locality.value) != "" then Some(Trim(d.locality.value)) else None) &&
      r.patch.bhk == (if d.bhk == Some(One) || d.bhk == Some(Two) then d.bhk else None) &&
      r.patch.furnishing == d.furnishing && r.patch.moveIn == d.moveIn && r.patch.profile == d.profile &&
      r.patch.budgetMinK == (if d.budgetMinK.Some? then Some(Clamp(d.budgetMinK.value, MIN_PARAM_K, MAX_PARAM_K)) else None) &&
      r.patch.budgetMaxK == (if d.budgetMaxK.Some? then Some(Clamp(d.budgetMaxK.value, MIN_PARAM_K, MAX_PARAM_K)) else None) &&
      r.patch.notes.None? && r.autoOpen && r.autoScroll
  {
    var q := ShareLink(base, pathname, d).params;
    ShareLinkValues(base.params, d);
    PrefillFields(q);
    AreaValueReadBack(d);
    BhkValueReadBack(d);
    EnumValuesReadBack(d);
    BudgetValueReadBack(d.budgetMinK);
    BudgetValueReadBack(d.budgetMaxK);
  }

  /**
   * The round trip: a draft with an area, a bhk of 1 or 2, both budget bounds
   * within `[10, 300]` and a trimmed non-blank locality comes back with every
   * field the link carries unchanged.
   */
  lemma ShareLinkRoundTrip(base: Url, pathname: string, d: Draft)
    requires forall k :: k in PREFILL_KEYS ==> Get(base.params, k).None?
    requires d.area.Some? && (d.bhk == Some(One) || d.bhk == Some(Two))
    requires d.budgetMinK.Some? && MIN_PARAM_K <= d.budgetMinK.value <= MAX_PARAM_K
    requires d.budgetMaxK.Some? && MIN_PARAM_K <= d.budgetMaxK.value <= MAX_PARAM_K
    requires d.locality.Some? && d.locality.value != "" && Trim(d.locality.value) == d.locality.value
    ensures var r := Prefill(ShareLink(base, pathname, d).params);
      r.patch == d.(name := None, phone := None, notes := None, prefillTs := None) && r.autoOpen && r.autoScroll
  {
    var r := Prefill(ShareLink(base, pathname, d).params);
    ShareLinkReadBack(base, pathname, d);
    ReadBackIsDraft(r.patch, d);
  }

  /** A patch read back from a link of such a draft is the draft without the fields a link does not carry. */
  lemma ReadBackIsDraft(p: Draft, d: Draft)
    requires d.area.Some? && (d.bhk == Some(One) || d.bhk == Some(Two))
    requires d.budgetMinK.Some? && MIN_PARAM_K <= d.budgetMinK.value <= MAX_PARAM_K
    requires d.budgetMaxK.Some? && MIN_PARAM_K <= d.budgetMaxK.value <= MAX_PARAM_K
    requires d.locality.Some? && d.locality.value != "" && Trim(d.locality.value) == d.locality.value
    requires p.area == d.area &&
      p.locality == (if d.locality.Some? && Trim(d.locality.value) != "" then Some(Trim(d.locality.value)) else None) &&
      p.bhk == (if d.bhk == Some(One) || d.bhk == Some(Two) then d.bhk else None) &&
      p.furnishing == d.furnishing && p.moveIn == d.moveIn && p.profile == d.profile &&
      p.budgetMinK == (if d.budgetMinK.Some? then Some(Clamp(d.budgetMinK.value, MIN_PARAM_K, MAX_PARAM_K)) else None) &&
      p.budgetMaxK == (if d.budgetMaxK.Some? then Some(Clamp(d.budgetMaxK.value, MIN_PARAM_K, MAX_PARAM_K)) else None) &&
      p.notes.None?
    requires p.name.None? && p.phone.None? && p.prefillTs.None?
    ensures p == d.(name := None, phone := None, notes := None, prefillTs := None)
  {
  }
}
