/**
 * The vocabulary loader of the template realizer: which specification file
 * is read, how textual value names are normalised, and the two maps
 * (attribute predicate -> known values, relation predicate -> known values)
 * built from the decoded JSON document.
 */
module LanguageSpec {
  import opened Wrappers

  // ---------------------------------------------------------------------
  // Choosing the specification file
  // ---------------------------------------------------------------------

  /**
   * The file name opened for `language` (`None` meaning English) when the
   * languages directory holds the files in `existing`; `None` when even the
   * English fallback is missing, where `open` raises.
   */
  function LanguageFile(language: Option<string>, existing: set<string>): (file: Option<string>)
    ensures file.Some? ==> file.value in existing
    ensures file.None? <==> language.GetOr("english") + ".json" !in existing && "english.json" !in existing
    ensures language.GetOr("english") + ".json" in existing ==> file == Some(language.GetOr("english") + ".json")
    ensures file.Some? && file.value != language.GetOr("english") + ".json" ==> file.value == "english.json"
  {
    var requested := language.GetOr("english") + ".json";
    if requested in existing then Some(requested)
    else if "english.json" in existing then Some("english.json")
    else None
  }

  // ---------------------------------------------------------------------
  // Value normalisation
  // ---------------------------------------------------------------------

  /** A normalised value name: an integer when the text parses as one. */
  datatype Value = IntValue(i: int) | TextValue(text: string)

  predicate IsDigit(c: char) {
    '0' <= c <= '9'
  }

  predicate AllDigits(s: string) {
    forall k :: 0 <= k < |s| ==> IsDigit(s[k])
  }

  function DigitValue(c: char): (d: nat)
    requires IsDigit(c)
    ensures d < 10
  {
    c as int - '0' as int
  }

  /** The number a string of decimal digits denotes (most significant first). */
  function DigitsValue(s: string): nat
    requires AllDigits(s)
    decreases |s|
  {
    if s == [] then 0 else DigitsValue(s[..|s| - 1]) * 10 + DigitValue(s[|s| - 1])
  }

  /**
   * The integer literals `int` accepts here: decimal digits, optionally
   * preceded by one `+` or `-` sign.
   */
  predicate IntLiteral(s: string) {
    (|s| > 0 && AllDigits(s)) || (|s| > 1 && (s[0] == '+' || s[0] == '-') && AllDigits(s[1..]))
  }

  /** Integer parsing of a value name, `None` where `int` raises `ValueError`. */
  function ParseInt(s: string): (r: Option<int>)
    ensures r.Some? <==> IntLiteral(s)
    ensures r.Some? && AllDigits(s) ==> r.value == DigitsValue(s)
    ensures r.Some? && s[0] == '+' ==> r.value == DigitsValue(s[1..])
    ensures r.Some? && s[0] == '-' ==> r.value == -(DigitsValue(s[1..]) as int)
  {
    if |s| == 0 then None
    else if s[0] == '-' || s[0] == '+' then
      var digits := s[1..];
      if |digits| > 0 && AllDigits(digits) then
        var magnitude: int := DigitsValue(digits);
        Some(if s[0] == '-' then -magnitude else magnitude)
      else None
    else if AllDigits(s) then Some(DigitsValue(s))
    else None
  }

  /** A value name as `_parse_value` normalises it: integer if it parses, else the text itself. */
  function ParseValue(s: string): (v: Value)
    ensures v.TextValue? <==> ParseInt(s).None?
    ensures v.TextValue? ==> v.text == s
    ensures v.IntValue? ==> ParseInt(s) == Some(v.i)
  {
    match ParseInt(s)
    case Some(n) => IntValue(n)
    case None => TextValue(s)
  }

  /** The digit character for `d`. */
  function Digit(d: nat): (c: char)
    requires d < 10
    ensures IsDigit(c) && DigitValue(c) == d
  {
    ('0' as int + d) as char
  }

  /** The decimal rendering of a natural number, as Python's `str` gives it. */
  function ShowNat(n: nat): string
    decreases n
  {
    if n < 10 then [Digit(n)] else ShowNat(n / 10) + [Digit(n % 10)]
  }

  /** The decimal rendering of an integer, as Python's `str` gives it. */
  function ShowInt(n: int): string {
    if n < 0 then "-" + ShowNat(-n) else ShowNat(n)
  }

  lemma {:induction false} ShowNatDigits(n: nat)
    ensures |ShowNat(n)| > 0 && AllDigits(ShowNat(n))
    ensures DigitsValue(ShowNat(n)) == n
    decreases n
  {
    if n >= 10 {
      ShowNatDigits(n / 10);
      var s := ShowNat(n);
      assert s[..|s| - 1] == ShowNat(n / 10);
    }
  }

  /** Every integer written in decimal is normalised back to that integer. */
  lemma ParseShowInt(n: int)
    ensures ParseInt(ShowInt(n)) == Some(n)
    ensures ParseValue(ShowInt(n)) == IntValue(n)
  {
    var m: nat := if n < 0 then -n else n;
    ShowNatDigits(m);
    var s := ShowInt(n);
    if n < 0 {
      assert s[1..] == ShowNat(m);
    } else {
      assert IsDigit(s[0]);
    }
  }

  /** Text that is not an integer literal is kept as it is; an integer literal never is. */
  lemma ParseKeepsText(s: string)
    requires !IntLiteral(s)
    ensures ParseValue(s) == TextValue(s)
  {
  }

  /** A leading zero does not change the number a digit string denotes. */
  lemma {:induction false} DigitsLeadingZero(d: string)
    requires AllDigits(d)
    ensures AllDigits("0" + d) && DigitsValue("0" + d) == DigitsValue(d)
    decreases |d|
  {
    var z := "0" + d;
    assert forall k :: 0 <= k < |z| ==> z[k] == (if k == 0 then '0' else d[k - 1]);
    if d != [] {
      var front := d[..|d| - 1];
      DigitsLeadingZero(front);
      assert z[..|z| - 1] == "0" + front;
    }
  }

  /** Leading zeros are accepted and ignored: `int("007") == int("7")`. */
  lemma LeadingZero(d: string)
    requires |d| > 0 && AllDigits(d)
    ensures ParseInt("0" + d) == ParseInt(d)
  {
    DigitsLeadingZero(d);
  }

  // ---------------------------------------------------------------------
  // The vocabulary maps
  // ---------------------------------------------------------------------

  /** One entry of a top-level JSON object: a predicate type and its value names, in file order. */
  datatype Entry = Entry(predtype: string, values: seq<string>)

  /**
   * The decoded specification document; a missing `attributes` or
   * `relations` key is the empty sequence.
   */
  datatype Spec = Spec(attributes: seq<Entry>, relations: seq<Entry>)

  /** Attribute predicate types the loader skips. */
  const Reserved: set<string> := {"relation", "shapes"}

  /** The normalised value names of one entry. */
  function ValueSet(names: seq<string>): (vs: set<Value>)
    ensures forall n :: n in names ==> ParseValue(n) in vs
    ensures forall v :: v in vs ==> exists n :: n in names && ParseValue(n) == v
  {
    set n | n in names :: ParseValue(n)
  }

  /**
   * The map the loader's loop leaves after processing `entries` in order,
   * skipping predicate types in `skip`: every later entry overwrites an
   * earlier one whose normalised predicate type is the same.
   */
  function BuildMap(entries: seq<Entry>, skip: set<string>): (m: map<Value, set<Value>>)
    ensures |m| <= |entries|
    decreases |entries|
  {
    if entries == [] then map[]
    else
      var entry := entries[|entries| - 1];
      var m := BuildMap(entries[..|entries| - 1], skip);
      if entry.predtype in skip then m else m[ParseValue(entry.predtype) := ValueSet(entry.values)]
  }

  /** The attribute map: `relation` and `shapes` entries are skipped, so they never become keys. */
  function AttributeMap(entries: seq<Entry>): (m: map<Value, set<Value>>)
    ensures |m| <= |entries|
    ensures TextValue("relation") !in m && TextValue("shapes") !in m
  {
    BuildMapKeys(entries, Reserved, TextValue("relation"));
    BuildMapKeys(entries, Reserved, TextValue("shapes"));
    BuildMap(entries, Reserved)
  }

  /** The relation map: no entry is skipped. */
  function RelationMap(entries: seq<Entry>): (m: map<Value, set<Value>>)
    ensures |m| <= |entries|
  {
    BuildMap(entries, {})
  }

  /** A key is in the map exactly when some entry that is not skipped normalises to it. */
  lemma {:induction false} BuildMapKeys(entries: seq<Entry>, skip: set<string>, k: Value)
    ensures k in BuildMap(entries, skip) <==>
      exists i :: 0 <= i < |entries| && entries[i].predtype !in skip && ParseValue(entries[i].predtype) == k
    decreases |entries|
  {
    if entries != [] {
      var front := entries[..|entries| - 1];
      BuildMapKeys(front, skip, k);
      assert forall i :: 0 <= i < |front| ==> front[i] == entries[i];
    }
  }

  /** The entry for a key holds the values of the last entry that normalises to it. */
  lemma {:induction false} BuildMapLastWins(entries: seq<Entry>, skip: set<string>, i: nat)
    requires i < |entries| && entries[i].predtype !in skip
    requires forall j :: i < j < |entries| && entries[j].predtype !in skip ==>
      ParseValue(entries[j].predtype) != ParseValue(entries[i].predtype)
    ensures ParseValue(entries[i].predtype) in BuildMap(entries, skip)
    ensures BuildMap(entries, skip)[ParseValue(entries[i].predtype)] == ValueSet(entries[i].values)
    decreases |entries|
  {
    var front := entries[..|entries| - 1];
    if i < |entries| - 1 {
      assert forall j :: 0 <= j < |front| ==> front[j] == entries[j];
      BuildMapLastWins(front, skip, i);
    }
  }

  /** Every attribute entry other than `relation` and `shapes` gets an entry. */
  lemma AttributeMapCoversOthers(entries: seq<Entry>, i: nat)
    requires i < |entries| && entries[i].predtype !in Reserved
    ensures ParseValue(entries[i].predtype) in AttributeMap(entries)
  {
    BuildMapKeys(entries, Reserved, ParseValue(entries[i].predtype));
  }

  /** Every relation entry gets an entry, and the relation map has no other keys. */
  lemma RelationMapCoversAll(entries: seq<Entry>, k: Value)
    ensures k in RelationMap(entries) <==> exists i :: 0 <= i < |entries| && ParseValue(entries[i].predtype) == k
  {
    BuildMapKeys(entries, {}, k);
  }
}

module LanguageSpecExamples {
  import opened Wrappers
  import opened LanguageSpec

  /** A digit followed by a letter is not an integer literal and stays text. */
  lemma TrailingLetter(s: string)
    requires s == "1a"
    ensures ParseInt(s) == None && ParseValue(s) == TextValue("1a")
  {
    assert !IsDigit(s[1]);
  }

  /** A sign without digits is not an integer literal. */
  lemma BareSign(s: string)
    requires s == "-"
    ensures ParseInt(s) == None && ParseValue(s) == TextValue("-")
  {
  }

  /** Leading zeros are ignored: "007" is 7. */
  lemma LeadingZeros(s: string)
    requires s == "007"
    ensures ParseInt(s) == Some(7) && ParseValue(s) == IntValue(7)
  {
    ParseShowInt(7);
    assert ShowInt(7) == "7";
    LeadingZero("7");
    assert "0" + "7" == "07";
    LeadingZero("07");
    assert "0" + "07" == s;
  }

  /** An explicit plus sign is accepted: "+5" is 5. */
  lemma PlusSign(s: string)
    requires s == "+5"
    ensures ParseInt(s) == Some(5) && ParseValue(s) == IntValue(5)
  {
    assert s[1..] == "5";
    assert DigitsValue("5") == DigitsValue([]) * 10 + DigitValue('5');
  }

  /** `relation` and `shapes` are dropped; `size` keeps its value names, normalised to integers. */
  lemma SizeExample(entries: seq<Entry>)
    requires entries == [Entry("relation", ["left"]), Entry("shapes", ["square"]), Entry("size", ["1", "2"])]
    ensures AttributeMap(entries) == map[TextValue("size") := {IntValue(1), IntValue(2)}]
  {
    var first := entries[..1];
    assert first[..0] == [];
    assert "relation" in Reserved && "shapes" in Reserved;
    assert |first| == 1 && first[0].predtype == "relation";
    assert BuildMap(first, Reserved) == BuildMap(first[..0], Reserved);
    assert entries[..2][..1] == first;
    assert AttributeMap(entries[..2]) == map[];
    assert !IsDigit("size"[0]);
    assert ParseValue("size") == TextValue("size");
    ParseShowInt(1);
    ParseShowInt(2);
    assert ShowInt(1) == "1" && ShowInt(2) == "2";
    assert ValueSet(["1", "2"]) == {IntValue(1), IntValue(2)};
  }
}
