/**
 * The closed table of stoppage reasons ("descripción paro") and the parser that turns a JSON
 * string into one: the input is trimmed and compared case-insensitively with each label, in
 * declaration order.
 */
module StoppageReasons {
  import opened Errors

  datatype StoppageReason =
    | MarquillaTalla
    | Composicion
    | Codigo
    | FaltanteDePieza
    | Bolsas
    | FaltaTodo
    | Ok
    | Ficha
    | Sesgo

  /** `values()`: every reason, in declaration order. */
  const Values: seq<StoppageReason> :=
    [MarquillaTalla, Composicion, Codigo, FaltanteDePieza, Bolsas, FaltaTodo, Ok, Ficha, Sesgo]

  /** `ordinal()`: the position of a reason in `values()`. */
  function Ordinal(r: StoppageReason): (i: nat)
    ensures i < |Values| && Values[i] == r
  {
    match r
    case MarquillaTalla => 0
    case Composicion => 1
    case Codigo => 2
    case FaltanteDePieza => 3
    case Bolsas => 4
    case FaltaTodo => 5
    case Ok => 6
    case Ficha => 7
    case Sesgo => 8
  }

  /** A character a label may contain: an upper-case ASCII letter or a space. */
  predicate IsLabelChar(c: char)
  {
    ('A' <= c <= 'Z') || c == ' '
  }

  /** `getLabel()`: the JSON spelling of a reason. */
  function Label(r: StoppageReason): (s: string)
    ensures |s| > 0 && s[0] != ' ' && s[|s| - 1] != ' '
    ensures forall i :: 0 <= i < |s| ==> IsLabelChar(s[i])
  {
    match r
    case MarquillaTalla => "MARQUILLA TALLA"
    case Composicion => "COMPOSICION"
    case Codigo => "CODIGO"
    case FaltanteDePieza => "FALTANTE DE PIEZA"
    case Bolsas => "BOLSAS"
    case FaltaTodo => "FALTA TODO"
    case Ok => "OK"
    case Ficha => "FICHA"
    case Sesgo => "SESGO"
  }

  /** Java's `String.trim()` drops leading characters up to and including U+0020. */
  function TrimStart(s: string): (t: string)
    ensures |t| <= |s| && t == s[|s| - |t|..]
    ensures forall i :: 0 <= i < |s| - |t| ==> s[i] <= ' '
    ensures t == [] || t[0] > ' '
  {
    if |s| > 0 && s[0] <= ' ' then TrimStart(s[1..]) else s
  }

  /** ... and trailing ones. */
  function TrimEnd(s: string): (t: string)
    ensures |t| <= |s| && t == s[..|t|]
    ensures forall i :: |t| <= i < |s| ==> s[i] <= ' '
    ensures t == [] || t[|t| - 1] > ' '
  {
    if |s| > 0 && s[|s| - 1] <= ' ' then TrimEnd(s[..|s| - 1]) else s
  }

  /** `String.trim()`. */
  function Trim(s: string): (t: string)
    ensures t == [] || (t[0] > ' ' && t[|t| - 1] > ' ')
  {
    TrimEnd(TrimStart(s))
  }

  /**
   * Java's `equalsIgnoreCase` for one character `c` of the input against a label character
   * `l`: equal, or equal after `Character.toUpperCase`, or after `toLowerCase` of that. For
   * the upper-case ASCII letters and the space that labels consist of, the characters this
   * accepts are the letter itself, its lower-case form, U+0131 and U+0130 for 'I', U+017F
   * for 'S', and U+212A (Kelvin sign) for 'K'.
   */
  predicate MatchesLabelChar(c: char, l: char)
    requires IsLabelChar(l)
  {
    || c == l
    || ('A' <= l <= 'Z' && c as int == l as int + 32)
    || (l == 'I' && (c == 'ı' || c == 'İ'))
    || (l == 'S' && c == 'ſ')
    || (l == 'K' && c == 'K')
  }

  /** `text.equalsIgnoreCase(s)` for a label `text`. */
  predicate LabelMatches(text: string, s: string)
    requires forall i :: 0 <= i < |text| ==> IsLabelChar(text[i])
  {
    |s| == |text| && forall i :: 0 <= i < |s| ==> MatchesLabelChar(s[i], text[i])
  }

  /**
   * The stream's `filter(...).findFirst()` from position `i` on: the index of the first reason
   * in `rs` whose label matches `s`.
   */
  function FirstMatch(rs: seq<StoppageReason>, s: string, i: nat): (r: Option<nat>)
    requires i <= |rs|
    ensures r.Some? ==>
      i <= r.value < |rs| && LabelMatches(Label(rs[r.value]), s)
      && forall j :: i <= j < r.value ==> !LabelMatches(Label(rs[j]), s)
    ensures r.None? ==> forall j :: i <= j < |rs| ==> !LabelMatches(Label(rs[j]), s)
    decreases |rs| - i
  {
    if i == |rs| then None
    else if LabelMatches(Label(rs[i]), s) then Some(i)
    else FirstMatch(rs, s, i + 1)
  }

  /**
   * `fromJson` (the JSON creator): null stays null; otherwise the trimmed input must match a
   * label ignoring case, or the input is rejected.
   */
  function FromJson(value: Option<string>): (r: Result<Option<StoppageReason>>)
    ensures value.None? <==> r == Success(None)
    ensures r.Failure? <==>
      value.Some? && forall k :: 0 <= k < |Values| ==> !LabelMatches(Label(Values[k]), Trim(value.value))
    ensures r.Failure? ==> r.error == InvalidStoppageReason(value.value)
    ensures r.Success? && r.value.Some? ==> value.Some? && LabelMatches(Label(r.value.value), Trim(value.value))
  {
    match value
    case None => Success(None)
    case Some(v) =>
      match FirstMatch(Values, Trim(v), 0)
      case Some(k) => Success(Some(Values[k]))
      case None => Failure(InvalidStoppageReason(v))
  }

  /** `fromLabel` delegates to `fromJson`. */
  function FromLabel(text: Option<string>): (r: Result<Option<StoppageReason>>)
    ensures r == FromJson(text)
  {
    FromJson(text)
  }

  /** A label matches, ignoring case, only itself: the labels are distinct and all upper case. */
  lemma {:induction false} LabelMatchesOnlyItself(a: StoppageReason, b: StoppageReason)
    ensures LabelMatches(Label(a), Label(b)) <==> a == b
  {
    var la, lb := Label(a), Label(b);
    if LabelMatches(la, lb) {
      forall i | 0 <= i < |lb| ensures lb[i] == la[i] {
        assert IsLabelChar(lb[i]) && MatchesLabelChar(lb[i], la[i]);
      }
      assert la == lb;
    }
  }

  /** Trimming cannot shorten a label. */
  lemma TrimLabel(r: StoppageReason)
    ensures Trim(Label(r)) == Label(r)
  {
  }

  /** Round trip: parsing the label of a reason gives back that reason. */
  lemma {:induction false} FromJsonLabel(r: StoppageReason)
    ensures FromJson(Some(Label(r))) == Success(Some(r))
  {
    TrimLabel(r);
    var i := Ordinal(r);
    LabelMatchesOnlyItself(r, r);
    assert LabelMatches(Label(Values[i]), Label(r));
    var k := FirstMatch(Values, Label(r), 0).value;
    LabelMatchesOnlyItself(Values[k], r);
  }

  /** No input character matches two different label characters. */
  lemma MatchesLabelCharUnique(c: char, l1: char, l2: char)
    requires IsLabelChar(l1) && IsLabelChar(l2)
    requires MatchesLabelChar(c, l1) && MatchesLabelChar(c, l2)
    ensures l1 == l2
  {
  }

  /** An input matches the label of at most one reason. */
  lemma {:induction false} LabelMatchesUnique(a: StoppageReason, b: StoppageReason, s: string)
    requires LabelMatches(Label(a), s) && LabelMatches(Label(b), s)
    ensures a == b
  {
    var la, lb := Label(a), Label(b);
    forall i | 0 <= i < |s| ensures la[i] == lb[i] {
      MatchesLabelCharUnique(s[i], la[i], lb[i]);
    }
    assert la == lb;
    LabelMatchesOnlyItself(a, b);
  }

  /** A string of characters up to U+0020, which `trim()` removes. */
  predicate Blank(s: string)
  {
    forall i :: 0 <= i < |s| ==> s[i] <= ' '
  }

  lemma {:induction false} TrimStartBlank(pre: string, s: string)
    requires Blank(pre) && (s == [] || s[0] > ' ')
    ensures TrimStart(pre + s) == s
  {
    if pre != [] {
      assert (pre + s)[1..] == pre[1..] + s;
      TrimStartBlank(pre[1..], s);
    } else {
      assert pre + s == s;
    }
  }

  lemma {:induction false} TrimEndBlank(s: string, post: string)
    requires Blank(post) && (s == [] || s[|s| - 1] > ' ')
    ensures TrimEnd(s + post) == s
  {
    if post != [] {
      assert (s + post)[..|s + post| - 1] == s + post[..|post| - 1];
      TrimEndBlank(s, post[..|post| - 1]);
    } else {
      assert s + post == s;
    }
  }

  /**
   * The parser ignores surrounding blanks and letter case: any input that matches a label
   * character by character, padded with characters up to U+0020, parses to that reason.
   */
  lemma TrimPadded(pre: string, s: string, post: string)
    requires Blank(pre) && Blank(post) && s != [] && s[0] > ' ' && s[|s| - 1] > ' '
    ensures Trim(pre + s + post) == s
  {
    assert pre + s + post == pre + (s + post);
    TrimStartBlank(pre, s + post);
    TrimEndBlank(s, post);
  }

  lemma {:induction false} FromJsonPadded(r: StoppageReason, pre: string, s: string, post: string)
    requires Blank(pre) && Blank(post) && LabelMatches(Label(r), s)
    ensures FromJson(Some(pre + s + post)) == Success(Some(r))
  {
    var l := Label(r);
    assert MatchesLabelChar(s[0], l[0]) && MatchesLabelChar(s[|s| - 1], l[|s| - 1]);
    TrimPadded(pre, s, post);
    var res := FromJson(Some(pre + s + post));
    assert LabelMatches(Label(Values[Ordinal(r)]), s);
    LabelMatchesUnique(res.value.value, r, s);
  }

  /** For example, " ok " parses to OK. */
  lemma FromJsonExampleOk()
    ensures FromJson(Some(" ok ")) == Success(Some(Ok))
  {
    assert LabelMatches(Label(Ok), "ok");
    var padded := " " + "ok" + " ";
    assert padded == " ok " by {
      assert |padded| == 4 && padded[0] == ' ' && padded[1] == 'o' && padded[2] == 'k' && padded[3] == ' ';
    }
    FromJsonPadded(Ok, " ", "ok", " ");
  }

  /** For example, "Codigo" parses to CODIGO. */
  lemma FromJsonExampleCodigo()
    ensures FromJson(Some("Codigo")) == Success(Some(Codigo))
  {
    assert LabelMatches(Label(Codigo), "Codigo");
    FromJsonPadded(Codigo, "", "Codigo", "");
    assert "" + "Codigo" + "" == "Codigo";
  }

  /** A word that is no label, such as "PARO", is rejected. */
  lemma FromJsonRejects()
    ensures FromJson(Some("PARO")) == Failure(InvalidStoppageReason("PARO"))
  {
    assert Trim("PARO") == "PARO";
    forall k | 0 <= k < |Values| ensures !LabelMatches(Label(Values[k]), "PARO") {
      assert |Label(Values[k])| != 4;
    }
  }
}
