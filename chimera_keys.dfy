/**
 * The member names under which the Chimera adapter writes the items of a Chimera
 * list, `<item name>_[<position>]`, and how it reads a position back from such a
 * name: the text between the last `[` and the last `]`, parsed the way .NET's
 * `int.TryParse` parses an integer (NumberStyles.Integer, Int32 range).
 */
module ChimeraKeys {
  import opened Wrappers

  const Int32Min: int := -0x8000_0000
  const Int32Max: int := 0x7FFF_FFFF

  /** `s.LastIndexOf(c)`: the position of the last `c` in `s`, or -1 when there is none. */
  function LastIndexOf(s: string, c: char): (r: int)
    ensures -1 <= r < |s|
    ensures r == -1 <==> c !in s
    ensures r >= 0 ==> s[r] == c && forall i :: r < i < |s| ==> s[i] != c
  {
    if s == [] then -1
    else if s[|s| - 1] == c then |s| - 1
    else
      assert s == s[..|s| - 1] + [s[|s| - 1]];
      LastIndexOf(s[..|s| - 1], c)
  }

  /** `s.StartsWith(prefix)`, modelled as an ordinal comparison of the characters. */
  predicate StartsWith(s: string, prefix: string)
  {
    |prefix| <= |s| && s[..|prefix|] == prefix
  }

  function AsciiUpper(c: char): char
  {
    if 'a' <= c <= 'z' then (c as int - 32) as char else c
  }

  /** `string.Equals(a, b, InvariantCultureIgnoreCase)` over the ASCII letters. */
  predicate EqualsIgnoreCase(a: string, b: string)
  {
    |a| == |b| && forall i :: 0 <= i < |a| ==> AsciiUpper(a[i]) == AsciiUpper(b[i])
  }

  /** The white space .NET's number parser skips: U+0009 to U+000D and the space. */
  predicate IsWhite(c: char)
  {
    c == ' ' || '\t' <= c <= '\r'
  }

  predicate IsDigit(c: char)
  {
    '0' <= c <= '9'
  }

  predicate AllDigits(s: string)
  {
    forall i :: 0 <= i < |s| ==> IsDigit(s[i])
  }

  /** The number a run of decimal digits spells, most significant first. */
  function DigitsValue(ds: string): nat
    requires AllDigits(ds)
  {
    if ds == [] then 0
    else DigitsValue(ds[..|ds| - 1]) * 10 + (ds[|ds| - 1] as int - '0' as int)
  }

  function TrimStart(s: string): (r: string)
    ensures r == [] || !IsWhite(r[0])
  {
    if s != [] && IsWhite(s[0]) then TrimStart(s[1..]) else s
  }

  function TrimEnd(s: string): (r: string)
    ensures r == [] || !IsWhite(r[|r| - 1])
  {
    if s != [] && IsWhite(s[|s| - 1]) then TrimEnd(s[..|s| - 1]) else s
  }

  /** Trailing NUL characters, which .NET's number parser accepts after everything else. */
  function TrimNuls(s: string): (r: string)
    ensures r == [] || r[|r| - 1] != '\0'
  {
    if s != [] && s[|s| - 1] == '\0' then TrimNuls(s[..|s| - 1]) else s
  }

  /**
   * `int.TryParse(s, out v)`: optional white space, an optional `+` or `-`, one or
   * more decimal digits, optional white space, then optional NUL characters; the
   * value must fit in 32 bits.
   */
  function TryParse(s: string): (r: Option<int>)
    ensures r.Some? ==> Int32Min <= r.value <= Int32Max
  {
    var t := TrimStart(TrimEnd(TrimNuls(s)));
    var signed := |t| > 0 && (t[0] == '-' || t[0] == '+');
    SignedValue(signed && t[0] == '-', if signed then t[1..] else t)
  }

  /** One or more digits after the sign, spelling a value within the 32-bit range. */
  function SignedValue(negative: bool, ds: string): (r: Option<int>)
    ensures r.Some? ==> Int32Min <= r.value <= Int32Max
  {
    if |ds| == 0 || !AllDigits(ds) then None
    else
      var v: int := if negative then -(DigitsValue(ds) as int) else DigitsValue(ds);
      if Int32Min <= v <= Int32Max then Some(v) else None
  }

  function DigitChar(d: nat): (c: char)
    requires d < 10
    ensures IsDigit(c) && c as int - '0' as int == d
  {
    ('0' as int + d) as char
  }

  /** `i.ToString()` for a position: its decimal digits without leading zeros. */
  function NatToDecimal(n: nat): (r: string)
    ensures |r| >= 1 && AllDigits(r) && DigitsValue(r) == n
    ensures |r| > 1 ==> r[0] != '0'
  {
    if n < 10 then [DigitChar(n)]
    else
      var r := NatToDecimal(n / 10) + [DigitChar(n % 10)];
      assert r[..|r| - 1] == NatToDecimal(n / 10);
      r
  }

  /** The member name of the item at position `i` of a list: `$"{name}_[{i}]"`. */
  function ItemKey(name: string, i: nat): string
  {
    name + "_[" + NatToDecimal(i) + "]"
  }

  /** An item's member name starts with the item's name, followed by `_[`, and ends with `]`. */
  lemma ItemKeyShape(name: string, i: nat)
    ensures var key := ItemKey(name, i);
      && name <= key && |key| == |name| + |NatToDecimal(i)| + 3
      && key[|name|..|name| + 2] == "_[" && key[|key| - 1] == ']'
  {
  }

  /**
   * The position a member name gives, for a list called `listName`: none unless the
   * name starts with the list's name, has a `[` before its last `]` and the text
   * between them parses as an integer.
   */
  function ItemIndex(key: string, listName: string): (r: Option<int>)
    ensures r.Some? ==> StartsWith(key, listName)
    ensures r.Some? ==> Int32Min <= r.value <= Int32Max
  {
    if !StartsWith(key, listName) then None
    else
      var indexStart := LastIndexOf(key, '[');
      var indexEnd := LastIndexOf(key, ']');
      if indexStart == -1 || indexEnd == -1 || indexStart >= indexEnd then None
      else TryParse(key[indexStart + 1..indexEnd])
  }

  /** The digits of an item's name are exactly what lies between its last `[` and its last `]`. */
  lemma ItemKeyDigits(name: string, i: nat)
    ensures var key := ItemKey(name, i);
      && LastIndexOf(key, '[') == |name| + 1
      && LastIndexOf(key, ']') == |key| - 1
      && key[|name| + 2..|key| - 1] == NatToDecimal(i)
  {
    var key := ItemKey(name, i);
    var ds := NatToDecimal(i);
    assert key[|name| + 1] == '[';
    assert forall j :: |name| + 1 < j < |key| ==> key[j] != '[' by {
      forall j | |name| + 1 < j < |key| ensures key[j] != '[' {
        if j < |key| - 1 {
          assert key[j] == ds[j - |name| - 2];
        }
      }
    }
    assert key[|key| - 1] == ']';
    assert key[|name| + 2..|key| - 1] == ds;
  }

  /** A string that begins and ends with a digit has nothing to trim. */
  lemma TrimDigits(ds: string)
    requires |ds| >= 1 && IsDigit(ds[0]) && IsDigit(ds[|ds| - 1])
    ensures TrimStart(TrimEnd(TrimNuls(ds))) == ds
  {
    assert TrimNuls(ds) == ds;
    assert TrimEnd(ds) == ds;
    assert TrimStart(ds) == ds;
  }

  /** Digits parse to the number they spell. */
  lemma TryParseDigits(ds: string)
    requires |ds| >= 1 && AllDigits(ds) && DigitsValue(ds) <= Int32Max
    ensures TryParse(ds) == Some(DigitsValue(ds))
  {
    assert IsDigit(ds[0]) && IsDigit(ds[|ds| - 1]);
    TrimDigits(ds);
    assert SignedValue(false, ds) == Some(DigitsValue(ds));
  }

  /** Reading the position back from an item's name gives the position it was written with. */
  lemma ItemIndexOfItemKey(name: string, listName: string, i: nat)
    requires StartsWith(name, listName)
    requires i <= Int32Max
    ensures ItemIndex(ItemKey(name, i), listName) == Some(i)
  {
    var key := ItemKey(name, i);
    ItemKeyDigits(name, i);
    assert key[..|name|] == name;
    assert key[..|listName|] == name[..|listName|];
    TryParseDigits(NatToDecimal(i));
  }

  lemma DigitsValueInjective(a: string, b: string)
    requires AllDigits(a) && AllDigits(b) && |a| == |b|
    requires DigitsValue(a) == DigitsValue(b)
    ensures a == b
  {
    if a != [] {
      var n := |a| - 1;
      DigitsValueInjective(a[..n], b[..n]);
      assert a == a[..n] + [a[n]] && b == b[..n] + [b[n]];
    }
  }

  /** Two different positions never share a member name, whatever the items are called. */
  lemma ItemKeyInjective(a: string, i: nat, b: string, j: nat)
    requires ItemKey(a, i) == ItemKey(b, j)
    ensures i == j && a == b
  {
    var key := ItemKey(a, i);
    ItemKeyDigits(a, i);
    ItemKeyDigits(b, j);
    assert |a| == |b|;
    assert NatToDecimal(i) == NatToDecimal(j);
    assert key[..|a|] == a && key[..|b|] == b;
  }

  /** A name whose brackets hold no number is passed over. */
  lemma NoNumberExample()
    ensures ItemIndex("Bars_[x]", "Bars").None?
  {
    var key := "Bars_[x]";
    assert key[..4] == "Bars";
    assert LastIndexOf(key, ']') == 7;
    assert LastIndexOf(key, '[') == 5 by {
      assert key[..7] == "Bars_[x" && key[..6] == "Bars_[";
    }
    assert key[6..7] == "x";
    LetterParseExample();
  }

  lemma LetterParseExample()
    ensures TryParse("x").None?
  {
    assert TrimStart(TrimEnd(TrimNuls("x"))) == "x";
    assert !AllDigits("x");
  }

  /** A name whose last `[` comes after its last `]` is passed over. */
  lemma BracketsReversedExample()
    ensures ItemIndex("Bars]_[", "Bars").None?
  {
    var key := "Bars]_[";
    assert key[..4] == "Bars";
    assert LastIndexOf(key, '[') == 6;
    assert LastIndexOf(key, ']') == 4 by {
      assert key[..6] == "Bars]_" && key[..5] == "Bars]";
    }
  }

  /** A name that does not start with the list's name is passed over. */
  lemma OtherListExample()
    ensures ItemIndex("Beams_[0]", "Bars").None?
  {
    assert "Beams_[0]"[..4] == "Beam";
  }

  /** A position may carry white space and a sign, as `int.TryParse` allows. */
  lemma SignedParseExample()
    ensures TryParse(" -12 ") == Some(-12)
  {
    assert TrimNuls(" -12 ") == " -12 ";
    assert TrimEnd(" -12 ") == " -12" by {
      assert " -12 "[..4] == " -12";
    }
    assert TrimStart(" -12") == "-12" by {
      assert " -12"[1..] == "-12";
    }
    assert "-12"[1..] == "12";
    assert DigitsValue("12") == 12 by {
      assert "12"[..1] == "1";
      assert "1"[..0] == "";
    }
  }

  lemma SignedPositionExample()
    ensures ItemIndex("Bars_[ -12 ]", "Bars") == Some(-12)
  {
    var key := "Bars_[ -12 ]";
    assert key[..4] == "Bars";
    assert LastIndexOf(key, ']') == 11;
    assert LastIndexOf(key, '[') == 5 by {
      assert key[..11] == "Bars_[ -12 " && key[..10] == "Bars_[ -12" && key[..9] == "Bars_[ -1";
      assert key[..8] == "Bars_[ -" && key[..7] == "Bars_[ " && key[..6] == "Bars_[";
    }
    assert key[6..11] == " -12 ";
    SignedParseExample();
  }
}
