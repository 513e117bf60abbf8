/**
  The five code-search selection widgets (roads, currencies, nationalities,
  hotels and cities). Each keeps the loaded list, the filtered list shown in
  the drop-down, the selected option and the code typed into the search box.
  Typing a code filters the list and may auto-select an item; choosing an
  option from the drop-down selects it, or clears the code when the empty
  option is chosen. Hotels, cities and nationalities match codes numerically
  and filter by prefix; currencies and roads use a looser match and filter by
  substring.
*/
module Dropdown {
  import opened Maybe
  import opened JsText

  /** Which widget the state belongs to. */
  datatype Widget = Road | Currency | Nationality | Hotel | City

  /** An item's code as the back end sends it: a JSON number or a string. */
  datatype Code = NumCode(n: int) | StrCode(s: string)

  /** A loaded item with its name already cleaned. */
  datatype Item = Item(code: Code, name: string)

  /** An item as fetched; its name may be missing. */
  datatype RawItem = RawItem(code: Code, name: Option<string>)

  /** The two matching rules the widgets use. */
  datatype Rule = PrefixNumeric | Substring

  /** What a code is matched for: the drop-down filter, the auto-selection
      while typing, or the lookup of an option chosen in the drop-down. */
  datatype Purpose = Filter | AutoPick | Choose

  function RuleOf(w: Widget): Rule {
    if w == Road || w == Currency then Substring else PrefixNumeric
  }

  /** `code.toString()`. */
  function CodeText(c: Code): string {
    match c
    case NumCode(n) => IntToString(n)
    case StrCode(s) => s
  }

  /** `code === parseInt(text, 10)`: only a number can equal it, and `NaN`
      equals nothing. */
  predicate NumberHit(text: string, c: Code) {
    c.NumCode? && ParseInt(text) == Some(c.n)
  }

  /** The four-way test of the substring widgets' auto-selection: equal to
      the parsed number, equal to the text, a string containing the text, or
      printing as the text. */
  predicate LooseHit(text: string, c: Code) {
    NumberHit(text, c)
    || c == StrCode(text)
    || (c.StrCode? && Contains(c.s, text))
    || CodeText(c) == text
  }

  predicate Hit(r: Rule, p: Purpose, text: string, c: Code) {
    match p
    case Filter =>
      if r == PrefixNumeric then StartsWith(CodeText(c), text) else Contains(CodeText(c), text)
    case AutoPick =>
      if r == PrefixNumeric then NumberHit(text, c) else LooseHit(text, c)
    case Choose =>
      if r == PrefixNumeric then NumberHit(text, c) else CodeText(c) == text
  }

  /** `Array.prototype.find`, as the index of the first item that matches. */
  function FirstHit(r: Rule, p: Purpose, text: string, xs: seq<Item>): (k: Option<nat>)
    ensures k.Some? ==> k.value < |xs| && Hit(r, p, text, xs[k.value].code)
    ensures k.Some? ==> forall j :: 0 <= j < k.value ==> !Hit(r, p, text, xs[j].code)
    ensures k.None? ==> forall j :: 0 <= j < |xs| ==> !Hit(r, p, text, xs[j].code)
    decreases |xs|
  {
    if xs == [] then None
    else if Hit(r, p, text, xs[0].code) then Some(0)
    else
      match FirstHit(r, p, text, xs[1..])
      case None => None
      case Some(k) => Some(k + 1)
  }

  /** `Array.prototype.filter` with the widget's drop-down test. */
  function Kept(r: Rule, text: string, xs: seq<Item>): (ys: seq<Item>)
    ensures |ys| <= |xs|
    ensures forall x :: x in ys <==> x in xs && Hit(r, Filter, text, x.code)
    ensures forall x :: multiset(ys)[x] == if Hit(r, Filter, text, x.code) then multiset(xs)[x] else 0
    decreases |xs|
  {
    if xs == [] then []
    else
      var rest := Kept(r, text, xs[1..]);
      assert xs == [xs[0]] + xs[1..];
      assert multiset(xs) == multiset([xs[0]]) + multiset(xs[1..]);
      if Hit(r, Filter, text, xs[0].code) then [xs[0]] + rest else rest
  }

  /** `ys` is `xs` with some elements left out and the rest in order. */
  predicate Sublist(ys: seq<Item>, xs: seq<Item>)
    decreases |xs|
  {
    if ys == [] then true
    else if xs == [] then false
    else (ys[0] == xs[0] && Sublist(ys[1..], xs[1..])) || Sublist(ys, xs[1..])
  }

  /** The filter keeps the list order. */
  lemma {:induction false} KeptSublist(r: Rule, text: string, xs: seq<Item>)
    ensures Sublist(Kept(r, text, xs), xs)
    decreases |xs|
  {
    if xs != [] {
      KeptSublist(r, text, xs[1..]);
      var rest := Kept(r, text, xs[1..]);
      if Hit(r, Filter, text, xs[0].code) {
        var ys := [xs[0]] + rest;
        assert ys[1..] == rest;
      } else if rest != [] {
        assert Sublist(rest, xs[1..]);
      }
    }
  }

  /** Filtering on the empty text would keep every item: the handlers'
      separate branch that restores the full list agrees with the filter. */
  lemma {:induction false} EmptyFilterKeepsAll(r: Rule, xs: seq<Item>)
    ensures Kept(r, "", xs) == xs
    decreases |xs|
  {
    if xs != [] {
      EmptyFilterKeepsAll(r, xs[1..]);
      assert StartsWith(CodeText(xs[0].code), "");
      assert xs == [xs[0]] + xs[1..];
    }
  }

  /** Two tests that agree on every item find the same first item. */
  lemma {:induction false} FirstHitAgrees(r: Rule, p: Purpose, t: string,
                                          r': Rule, p': Purpose, t': string, xs: seq<Item>)
    requires forall j :: 0 <= j < |xs| ==> (Hit(r, p, t, xs[j].code) <==> Hit(r', p', t', xs[j].code))
    ensures FirstHit(r, p, t, xs) == FirstHit(r', p', t', xs)
    decreases |xs|
  {
    if xs != [] {
      assert Hit(r, p, t, xs[0].code) == Hit(r', p', t', xs[0].code);
      FirstHitAgrees(r, p, t, r', p', t', xs[1..]);
    }
  }

  // ----- names of the loaded items -----

  const UnnamedRoad := "طريق بدون اسم"

  /** The road list's name cleaning: a missing or empty name becomes the
      "road without a name" placeholder, any other name is trimmed. */
  function RoadName(name: Option<string>): string {
    if name.None? || name.value == "" then UnnamedRoad else Trim(name.value)
  }

  /** A road's shown name never starts or ends with white space, and a
      present name is exactly its text between the white space at its ends. */
  lemma RoadNameSpec(name: Option<string>)
    ensures Trimmed(RoadName(name))
    ensures name.None? || name == Some("") ==> RoadName(name) == UnnamedRoad
    ensures name.Some? && name.value != "" ==>
      SliceBetweenWhitespace(name.value, RoadName(name), |name.value| - |TrimStart(name.value)|)
  {
    if name.Some? && name.value != "" {
      TrimSpec(name.value);
    } else {
      assert UnnamedRoad[0] == 'ط' && UnnamedRoad[|UnnamedRoad| - 1] == 'م';
    }
  }

  /** The placeholder test comes before the trim, so a name made only of
      white space shows as the empty text, not as the placeholder. */
  lemma BlankRoadNameIsEmpty(s: string)
    requires s != [] && AllWhitespace(s)
    ensures RoadName(Some(s)) == ""
  {
    var e: string := [];
    assert s + e + e == s;
    TrimUnique(s, e, e);
  }

  /** The road list keeps every fetched road, in order, with its code. */
  function NormaliseRoads(raw: seq<RawItem>): (r: seq<Item>)
    ensures |r| == |raw|
    ensures forall i :: 0 <= i < |raw| ==> r[i].code == raw[i].code && Trimmed(r[i].name)
    ensures forall i :: 0 <= i < |raw| ==> r[i] == Item(raw[i].code, RoadName(raw[i].name))
  {
    var r := seq(|raw|, i requires 0 <= i < |raw| => Item(raw[i].code, RoadName(raw[i].name)));
    assert forall i :: 0 <= i < |raw| ==> Trimmed(r[i].name) by {
      forall i | 0 <= i < |raw| {
        RoadNameSpec(raw[i].name);
      }
    }
    r
  }

  /** The other widgets trim every name; a missing name throws, the load is
      abandoned and the list keeps its former value. */
  function TrimNames(raw: seq<RawItem>): (r: Option<seq<Item>>)
    ensures r.Some? <==> forall i :: 0 <= i < |raw| ==> raw[i].name.Some?
    ensures r.Some? ==> |r.value| == |raw|
    ensures r.Some? ==> forall i :: 0 <= i < |raw| ==>
      r.value[i].code == raw[i].code && r.value[i].name == Trim(raw[i].name.value)
    decreases |raw|
  {
    if raw == [] then Some([])
    else if raw[0].name.None? then None
    else
      match TrimNames(raw[1..])
      case None => None
      case Some(rest) => Some([Item(raw[0].code, Trim(raw[0].name.value))] + rest)
  }

  /** A successful load names every item with trimmed text. */
  lemma TrimNamesTrimmed(raw: seq<RawItem>)
    requires TrimNames(raw).Some?
    ensures forall i :: 0 <= i < |raw| ==> Trimmed(TrimNames(raw).value[i].name)
  {
    forall i | 0 <= i < |raw| {
      TrimSpec(raw[i].name.value);
    }
  }

  /** The list a fetch installs, or `None` when the mapping throws. */
  function Processed(w: Widget, raw: seq<RawItem>): (r: Option<seq<Item>>)
    ensures w == Road ==> r.Some?
    ensures w != Road ==> (r.Some? <==> forall i :: 0 <= i < |raw| ==> raw[i].name.Some?)
    ensures r.Some? ==> |r.value| == |raw|
    ensures r.Some? ==> forall i :: 0 <= i < |raw| ==>
      r.value[i].code == raw[i].code && Trimmed(r.value[i].name)
  {
    if w == Road then Some(NormaliseRoads(raw))
    else
      var r := TrimNames(raw);
      if r.None? then r
      else TrimNamesTrimmed(raw); r
  }

  // ----- properties of the matching rules -----

  /** The substring widgets' four-way test comes down to two cases: a number
      code matches when the text parses to it, a string code when it
      contains the text. */
  lemma LooseHitReduces(text: string, c: Code)
    ensures LooseHit(text, c) <==>
      if c.NumCode? then ParseInt(text) == Some(c.n) else Contains(c.s, text)
  {
    if c.NumCode? {
      if CodeText(c) == text {
        ParseIntRoundTrip(c.n);
      }
    } else if c.s == text {
      var e: string := [];
      assert e + text + e == text;
      ContainsInfix(e, text, e);
    }
  }

  /** For the numeric widgets, choosing an option and then retyping the code
      that the choice wrote into the search box auto-selects the same item,
      and that item stays visible in the drop-down. */
  lemma NumericReselectConsistent(xs: seq<Item>, value: string)
    requires FirstHit(PrefixNumeric, Choose, value, xs).Some?
    ensures var k := FirstHit(PrefixNumeric, Choose, value, xs).value;
      FirstHit(PrefixNumeric, AutoPick, CodeText(xs[k].code), xs) == Some(k)
      && xs[k] in Kept(PrefixNumeric, CodeText(xs[k].code), xs)
  {
    var k := FirstHit(PrefixNumeric, Choose, value, xs).value;
    var n := xs[k].code.n;
    var typed := IntToString(n);
    ParseIntRoundTrip(n);
    assert ParseInt(typed) == ParseInt(value);
    FirstHitAgrees(PrefixNumeric, AutoPick, typed, PrefixNumeric, Choose, value, xs);
    assert StartsWith(CodeText(xs[k].code), typed);
  }

  /** For the substring widgets the same round trip can land elsewhere: with
      a string code that contains another item's whole code listed first,
      choosing the second item and retyping its code auto-selects the first. */
  lemma SubstringReselectCanDiffer(a: string, c: string, name1: string, name2: string)
    requires a != []
    ensures var xs := [Item(StrCode(a + c), name1), Item(StrCode(c), name2)];
      FirstHit(Substring, Choose, c, xs) == Some(1)
      && FirstHit(Substring, AutoPick, c, xs) == Some(0)
  {
    var e: string := [];
    assert a + c + e == a + c;
    ContainsInfix(a, c, e);
    assert CodeText(StrCode(a + c)) != c by {
      assert |a + c| != |c|;
    }
  }

  /** A typed code with trailing non-digits, such as "12x", parses to a
      number: the numeric widgets auto-select an item with that code, yet
      the prefix filter hides every such item from the drop-down. */
  lemma SuffixedCodeSelectsHiddenItem(xs: seq<Item>, i: nat, n: int, q: string)
    requires i < |xs| && xs[i].code == NumCode(n)
    requires q != [] && !IsDigit(q[0])
    ensures var typed := IntToString(n) + q;
      var k := FirstHit(PrefixNumeric, AutoPick, typed, xs);
      k.Some? && k.value <= i && xs[k.value].code == NumCode(n)
      && xs[k.value] !in Kept(PrefixNumeric, typed, xs)
  {
    var typed := IntToString(n) + q;
    ParseIntOfIntToString(n, q);
    assert Hit(PrefixNumeric, AutoPick, typed, xs[i].code);
    var k := FirstHit(PrefixNumeric, AutoPick, typed, xs).value;
    assert !StartsWith(CodeText(NumCode(n)), typed) by {
      assert |typed| > |IntToString(n)|;
    }
  }

  /** Choosing an option finds an item with that option's code, at or before
      it in the list, whenever the item's code is of a kind the widget's
      lookup can match: the numeric widgets can only ever find number codes. */
  lemma ChoosingAnOptionFindsIt(r: Rule, xs: seq<Item>, i: nat)
    requires i < |xs|
    requires r == PrefixNumeric ==> xs[i].code.NumCode?
    ensures var k := FirstHit(r, Choose, CodeText(xs[i].code), xs);
      k.Some? && k.value <= i && CodeText(xs[k.value].code) == CodeText(xs[i].code)
      && (r == PrefixNumeric ==> xs[k.value].code == xs[i].code)
  {
    var text := CodeText(xs[i].code);
    if r == PrefixNumeric {
      ParseIntRoundTrip(xs[i].code.n);
    }
    assert Hit(r, Choose, text, xs[i].code);
  }

  // ----- the widget state -----

  class CodeSearch {
    const widget: Widget
    /** The loaded items (`roads`, `currencies`, ...). */
    var list: seq<Item>
    /** The items shown in the drop-down. */
    var filtered: seq<Item>
    /** The `value` of the drop-down. */
    var selected: string
    /** The text of the code search box. */
    var typedCode: string

    /** Every piece of state starts empty. */
    constructor(w: Widget)
      ensures widget == w
      ensures list == [] && filtered == [] && selected == "" && typedCode == ""
    {
      widget := w;
      list := [];
      filtered := [];
      selected := "";
      typedCode := "";
    }

    /** A successful fetch installs the cleaned list as both the loaded and
        the shown list; a load whose name cleaning throws changes nothing. */
    method Receive(raw: seq<RawItem>) returns (loaded: bool)
      modifies this
      ensures loaded <==> Processed(widget, raw).Some?
      ensures loaded ==> list == Processed(widget, raw).value && filtered == list
      ensures !loaded ==> list == old(list) && filtered == old(filtered)
      ensures selected == old(selected) && typedCode == old(typedCode)
    {
      var p := Processed(widget, raw);
      loaded := p.Some?;
      if loaded {
        list := p.value;
        filtered := p.value;
      }
    }

    /** `handleCodeChange`: the search box takes the typed text; a non-empty
        text auto-selects the first matching item, reporting it to the
        callback, and filters the drop-down; an empty text shows the whole
        list. */
    method HandleCodeChange(code: string) returns (call: Option<Item>)
      modifies this
      ensures typedCode == code && list == old(list)
      ensures code == "" ==> filtered == list && selected == old(selected) && call == None
      ensures code != "" ==> filtered == Kept(RuleOf(widget), code, list)
      ensures code != "" ==>
        var k := FirstHit(RuleOf(widget), AutoPick, code, list);
        if k.Some? then selected == CodeText(list[k.value].code) && call == Some(list[k.value])
        else selected == old(selected) && call == None
    {
      typedCode := code;
      call := None;
      if code != "" {
        var k := FirstHit(RuleOf(widget), AutoPick, code, list);
        if k.Some? {
          var found := list[k.value];
          selected := CodeText(found.code);
          call := Some(found);
        }
        filtered := Kept(RuleOf(widget), code, list);
      } else {
        filtered := list;
      }
    }

    /** `handleSelectChange`: the drop-down takes the chosen value; a found
        item writes its code into the search box and goes to the callback;
        the empty option clears the search box and calls back with `null`.
        The shown list is never touched. The result is the callback's
        argument, if it is called. */
    method HandleSelectChange(value: string) returns (call: Option<Option<Item>>)
      modifies this
      ensures selected == value && list == old(list) && filtered == old(filtered)
      ensures value == "" ==> typedCode == "" && call == Some(None)
      ensures value != "" ==>
        var k := FirstHit(RuleOf(widget), Choose, value, list);
        if k.Some? then typedCode == CodeText(list[k.value].code) && call == Some(Some(list[k.value]))
        else typedCode == old(typedCode) && call == None
    {
      selected := value;
      call := None;
      if value != "" {
        var k := FirstHit(RuleOf(widget), Choose, value, list);
        if k.Some? {
          var found := list[k.value];
          typedCode := CodeText(found.code);
          call := Some(Some(found));
        }
      } else {
        typedCode := "";
        call := Some(None);
      }
    }
  }
}
