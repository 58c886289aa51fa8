/**
 * Israeli phone numbers reduced to one digit-only form so that the same
 * number written with a country code, separators or a missing leading zero
 * matches itself across the two lead stores.
 */
module PhoneNormalize {
  import opened Wrappers
  import opened Text

  /** The digits of `s`, in order: `re.sub(r'\D', '', s)`. */
  function KeepDigits(s: string): (d: string)
    ensures AllDigits(d) && |d| <= |s|
    ensures AllDigits(s) ==> d == s
  {
    if s == [] then []
    else (if IsDigit(s[0]) then [s[0]] else []) + KeepDigits(s[1..])
  }

  lemma {:induction false} KeepDigitsDistributes(a: string, b: string)
    ensures KeepDigits(a + b) == KeepDigits(a) + KeepDigits(b)
  {
    if a == [] {
      assert a + b == b;
    } else {
      var h := if IsDigit(a[0]) then [a[0]] else [];
      assert (a + b)[0] == a[0] && (a + b)[1..] == a[1..] + b;
      assert KeepDigits(a + b) == h + KeepDigits(a[1..] + b);
      KeepDigitsDistributes(a[1..], b);
      assert KeepDigits(a) == h + KeepDigits(a[1..]);
    }
  }

  /**
   * `normalize_phone`: the digits of the input, with a leading `972`
   * replaced by `0` and a leading `0` added to a nine-digit number starting
   * with `5`; fewer than seven digits, or none, give no number.
   */
  function NormalizePhone(phone: Option<string>): (r: Option<string>)
    ensures phone.None? || phone == Some("") ==> r.None?
    ensures r.Some? ==> AllDigits(r.value) && |r.value| >= 7
  {
    if phone.None? || phone.value == "" then None
    else
      var d0 := KeepDigits(phone.value);
      if d0 == "" then None
      else
        var d1 := if StartsWith(d0, "972") then "0" + d0[3..] else d0;
        var d2 := if |d1| == 9 && StartsWith(d1, "5") then "0" + d1 else d1;
        if |d2| == 10 && StartsWith(d2, "05") then Some(d2)
        else if |d2| == 9 && StartsWith(d2, "0") then Some(d2)
        else if |d2| == 10 && StartsWith(d2, "0") then Some(d2)
        else if |d2| >= 7 then Some(d2)
        else None
  }

  /** Only the digits of a phone number matter: separators, spaces and `+` are ignored. */
  lemma NormalizeIgnoresSeparators(p: string)
    requires p != ""
    ensures NormalizePhone(Some(p)) == NormalizePhone(Some(KeepDigits(p)))
  {
  }

  /** Fewer than seven digits is never a phone number; seven or more without a `972` prefix always is. */
  lemma NormalizeLengthThreshold(p: string)
    ensures |KeepDigits(p)| < 7 ==> NormalizePhone(Some(p)).None?
    ensures |KeepDigits(p)| >= 7 && !StartsWith(KeepDigits(p), "972") ==> NormalizePhone(Some(p)).Some?
  {
  }

  /** The country code `972` becomes the trunk prefix `0`. */
  lemma InternationalPrefixBecomesZero(rest: string)
    requires AllDigits(rest) && |rest| >= 6
    ensures NormalizePhone(Some("972" + rest)) == Some("0" + rest)
  {
    assert ("972" + rest)[..3] == "972";
    assert ("972" + rest)[3..] == rest;
  }

  /** A nine-digit mobile number written without its leading zero gets one. */
  lemma MissingZeroRestored(d: string)
    requires AllDigits(d) && |d| == 9 && d[0] == '5'
    ensures NormalizePhone(Some(d)) == Some("0" + d)
  {
  }

  /** Nine- and ten-digit numbers that already start with `0` are kept as they are. */
  lemma LocalNumbersKept(d: string)
    requires AllDigits(d) && d != [] && d[0] == '0' && (|d| == 9 || |d| == 10)
    ensures NormalizePhone(Some(d)) == Some(d)
  {
  }

  /** A normalized number is its own normal form. */
  lemma NormalizeIdempotent(phone: Option<string>)
    requires NormalizePhone(phone).Some?
    ensures NormalizePhone(NormalizePhone(phone)) == NormalizePhone(phone)
  {
    var d0 := KeepDigits(phone.value);
    var r := NormalizePhone(phone).value;
    assert !StartsWith(r, "972") by {
      if StartsWith(d0, "972") {
        assert r[0] == '0';
      } else if |d0| == 9 && StartsWith(d0, "5") {
        assert r[0] == '0';
      } else {
        assert r == d0;
      }
    }
    assert !(|r| == 9 && StartsWith(r, "5")) by {
      if StartsWith(d0, "972") {
        assert r[0] == '0';
      } else if |d0| == 9 && StartsWith(d0, "5") {
        assert r[0] == '0';
      } else {
        assert r == d0;
      }
    }
  }

  // The documented examples, without and with separators.

  lemma ExampleInternational()
    ensures NormalizePhone(Some("972" + "501234567")) == Some("0501234567")
  {
    assert AllDigits("501234567");
    InternationalPrefixBecomesZero("501234567");
    assert "0" + "501234567" == "0501234567";
  }

  lemma ExampleLocal()
    ensures NormalizePhone(Some("0501234567")) == Some("0501234567")
  {
    assert AllDigits("0501234567");
    LocalNumbersKept("0501234567");
  }

  lemma KeepDigitsDropsSeparator(c: char)
    requires !IsDigit(c)
    ensures KeepDigits([c]) == []
  {
    assert [c][1..] == [];
  }

  /** A separator between a run of digits and the rest is dropped. */
  lemma KeepDigitsSkipsSeparator(a: string, c: char, b: string)
    requires AllDigits(a) && !IsDigit(c)
    ensures KeepDigits(a + [c] + b) == a + KeepDigits(b)
  {
    hide *;
    KeepDigitsDropsSeparator(c);
    KeepDigitsDistributes(a, [c]);
    KeepDigitsDistributes(a + [c], b);
  }

  /** Three runs of digits with one separator between each reduce to the runs joined. */
  lemma KeepDigitsOfThreeRuns(x: string, c: char, y: string, d: char, z: string)
    requires AllDigits(x) && AllDigits(y) && AllDigits(z)
    requires !IsDigit(c) && !IsDigit(d)
    ensures KeepDigits(x + [c] + y + [d] + z) == x + y + z
  {
    hide *;
    assert x + [c] + y + [d] + z == x + [c] + (y + [d] + z);
    KeepDigitsSkipsSeparator(y, d, z);
    KeepDigitsSkipsSeparator(x, c, y + [d] + z);
    assert x + (y + z) == x + y + z;
  }

  lemma LocalRunsJoin()
    ensures "050" + "123" + "4567" == "0501234567"
  {
  }

  lemma MobileRunsJoin()
    ensures "50" + "123" + "4567" == "501234567"
  {
  }

  lemma ExampleInternationalDashed(p: string)
    requires p == "+972" + "-" + ("50" + "-" + "123" + "-" + "4567")
    ensures NormalizePhone(Some(p)) == Some("0501234567")
  {
    var tail := "50" + "-" + "123" + "-" + "4567";
    assert AllDigits("972") && AllDigits("50") && AllDigits("123") && AllDigits("4567");
    assert !IsDigit('+') && !IsDigit('-');
    assert p == [] + ['+'] + ("972" + ['-'] + tail);
    hide *;
    KeepDigitsOfThreeRuns("50", '-', "123", '-', "4567");
    MobileRunsJoin();
    KeepDigitsSkipsSeparator("972", '-', tail);
    KeepDigitsSkipsSeparator([], '+', "972" + ['-'] + tail);
    assert KeepDigits(p) == "972" + "501234567";
    NormalizeIgnoresSeparators(p);
    ExampleInternational();
  }

  lemma ExampleInternationalPlus(p: string)
    requires p == "+" + ("972" + "501234567")
    ensures NormalizePhone(Some(p)) == Some("0501234567")
  {
    var digits := "972" + "501234567";
    assert AllDigits("972") && AllDigits("501234567");
    assert AllDigits(digits) && !IsDigit('+');
    assert p == [] + ['+'] + digits;
    KeepDigitsSkipsSeparator([], '+', digits);
    assert KeepDigits(p) == [] + KeepDigits(digits) == digits;
    NormalizeIgnoresSeparators(p);
    ExampleInternational();
  }

  lemma ExampleLocalDashed(p: string)
    requires p == "050" + "-" + "123" + "-" + "4567"
    ensures NormalizePhone(Some(p)) == Some("0501234567")
  {
    assert AllDigits("050") && AllDigits("123") && AllDigits("4567");
    KeepDigitsOfThreeRuns("050", '-', "123", '-', "4567");
    LocalRunsJoin();
    NormalizeIgnoresSeparators(p);
    ExampleLocal();
  }

  lemma ExampleLocalSpaced(p: string)
    requires p == "050" + " " + "123" + " " + "4567"
    ensures NormalizePhone(Some(p)) == Some("0501234567")
  {
    assert AllDigits("050") && AllDigits("123") && AllDigits("4567");
    KeepDigitsOfThreeRuns("050", ' ', "123", ' ', "4567");
    LocalRunsJoin();
    NormalizeIgnoresSeparators(p);
    ExampleLocal();
  }

  lemma ExampleMissingZero(d: string)
    requires d == "501234567"
    ensures NormalizePhone(Some(d)) == Some("0" + d)
  {
    assert AllDigits(d) && d[0] == '5';
    MissingZeroRestored(d);
  }

  lemma ExamplesRejected()
    ensures NormalizePhone(Some("")) == None
    ensures NormalizePhone(None) == None
    ensures NormalizePhone(Some("abc")) == None
    ensures NormalizePhone(Some("123")) == None
  {
  }

  /** `phones_match`: both numbers normalize, to the same form. */
  function PhonesMatch(phone1: Option<string>, phone2: Option<string>): (m: bool)
    ensures m ==> NormalizePhone(phone1).Some? && NormalizePhone(phone1) == NormalizePhone(phone2)
    ensures NormalizePhone(phone1).Some? && NormalizePhone(phone1) == NormalizePhone(phone2) ==> m
  {
    var n1 := NormalizePhone(phone1);
    var n2 := NormalizePhone(phone2);
    if n1.None? || n2.None? then false else n1 == n2
  }

  /** Matching is symmetric and transitive, and a valid number matches itself. */
  lemma PhonesMatchIsEquivalence(a: Option<string>, b: Option<string>, c: Option<string>)
    ensures PhonesMatch(a, b) == PhonesMatch(b, a)
    ensures PhonesMatch(a, b) && PhonesMatch(b, c) ==> PhonesMatch(a, c)
    ensures PhonesMatch(a, a) <==> NormalizePhone(a).Some?
  {
  }

  /** `normalized[:3]-normalized[3:6]-normalized[6:]`. */
  function Dashed(n: string): string
    requires |n| >= 6
  {
    n[..3] + "-" + n[3..6] + "-" + n[6..]
  }

  /**
   * `extract_phone_variants`: the normalized number, its `972` and `+972`
   * forms when it starts with `0`, and its dashed form when it has ten
   * digits.  Every variant normalizes back to the same number.
   */
  method ExtractPhoneVariants(phone: Option<string>) returns (variants: seq<string>)
    ensures NormalizePhone(phone).None? ==> variants == []
    ensures NormalizePhone(phone).Some? ==> VariantsOf(NormalizePhone(phone).value, variants)
    ensures forall v :: v in variants ==> NormalizePhone(Some(v)) == NormalizePhone(phone)
  {
    if phone.None? || phone.value == "" {
      return [];
    }
    var normalized := NormalizePhone(phone);
    if normalized.None? {
      return [];
    }
    var n := normalized.value;
    NormalizeIdempotent(phone);
    variants := [n];
    if n[0] == '0' {
      var intl := "972" + n[1..];
      variants := variants + [intl];
      variants := variants + ["+" + intl];
    }
    if |n| == 10 {
      var withDashes := n[..3] + "-" + n[3..6] + "-" + n[6..];
      variants := variants + [withDashes];
    }
    VariantListFacts(n, variants);
  }

  /**
   * What the variant list of a normalized number `n` holds: `n` first, the
   * `972` and `+972` forms exactly when `n` starts with `0`, the dashed form
   * exactly when `n` has ten digits, and nothing else.
   */
  predicate VariantsOf(n: string, variants: seq<string>)
    requires |n| >= 7
  {
    && variants != [] && variants[0] == n
    && (n[0] == '0' <==> "972" + n[1..] in variants)
    && (n[0] == '0' <==> "+972" + n[1..] in variants)
    && (|n| == 10 <==> Dashed(n) in variants)
    && |variants| == 1 + (if n[0] == '0' then 2 else 0) + (if |n| == 10 then 1 else 0)
  }

  lemma VariantListFacts(n: string, variants: seq<string>)
    requires AllDigits(n) && |n| >= 7 && NormalizePhone(Some(n)) == Some(n)
    requires variants == [n] + (if n[0] == '0' then ["972" + n[1..], "+" + ("972" + n[1..])] else [])
                             + (if |n| == 10 then [n[..3] + "-" + n[3..6] + "-" + n[6..]] else [])
    ensures VariantsOf(n, variants)
    ensures forall v :: v in variants ==> NormalizePhone(Some(v)) == Some(n)
  {
    var intl := "972" + n[1..];
    assert "+" + intl == "+972" + n[1..];
    if n[0] == '0' {
      InternationalVariants(n);
    }
    if |n| == 10 {
      DashedVariant(n);
    }
    VariantListShape(n, variants);
  }

  /** The variants are told apart by their length and their dashes. */
  lemma VariantListShape(n: string, variants: seq<string>)
    requires AllDigits(n) && |n| >= 7 && !StartsWith(n, "972")
    requires variants == [n] + (if n[0] == '0' then ["972" + n[1..], "+" + ("972" + n[1..])] else [])
                             + (if |n| == 10 then [n[..3] + "-" + n[3..6] + "-" + n[6..]] else [])
    ensures VariantsOf(n, variants)
  {
    var intl := "972" + n[1..];
    assert "+" + intl == "+972" + n[1..];
    NoDashInDigits(n);
    NoDashInDigits(n[1..]);
    assert '-' !in intl;
    assert |intl| == |n| + 2 && |"+972" + n[1..]| == |n| + 3 && |Dashed(n)| == |n| + 2;
    if |n| == 10 {
      assert Dashed(n)[3] == '-';
    }
  }

  lemma NoDashInDigits(d: string)
    requires AllDigits(d)
    ensures '-' !in d
  {
    forall i | 0 <= i < |d| ensures d[i] != '-' {
      assert IsDigit(d[i]);
    }
  }

  /** The `972` and `+972` forms of a local number normalize back to it and are not dashed. */
  lemma InternationalVariants(n: string)
    requires AllDigits(n) && |n| >= 7 && n[0] == '0'
    ensures NormalizePhone(Some("972" + n[1..])) == Some(n)
    ensures NormalizePhone(Some("+972" + n[1..])) == Some(n)
    ensures |"972" + n[1..]| == |n| + 2 && |"+972" + n[1..]| == |n| + 3
    ensures '-' !in "972" + n[1..] && '-' !in n
  {
    var intl := "972" + n[1..];
    InternationalPrefixBecomesZero(n[1..]);
    assert "0" + n[1..] == n;
    KeepDigitsDistributes("+", intl);
    assert KeepDigits("+") == "";
    assert AllDigits(intl);
    assert KeepDigits("+" + intl) == intl;
    assert "+972" + n[1..] == "+" + intl;
    NormalizeIgnoresSeparators("+" + intl);
    NoDashInDigits(n[1..]);
    NoDashInDigits(n);
    NoDashInDigits(intl);
  }

  /** The dashed form of a ten-digit number normalizes like the number and differs from the other forms. */
  lemma DashedVariant(n: string)
    requires AllDigits(n) && |n| == 10
    ensures NormalizePhone(Some(Dashed(n))) == NormalizePhone(Some(n))
    ensures |Dashed(n)| == 12 && '-' in Dashed(n) && Dashed(n)[0] == n[0]
  {
    DashedDigits(n);
    NormalizeIgnoresSeparators(Dashed(n));
    assert Dashed(n)[3] == '-';
  }

  /** Dropping the dashes from the dashed form gives the number back. */
  lemma DashedDigits(n: string)
    requires AllDigits(n) && |n| >= 6
    ensures KeepDigits(Dashed(n)) == n
  {
    var a, b, c := n[..3], n[3..6], n[6..];
    assert AllDigits(a) && AllDigits(b) && AllDigits(c);
    DashThenDigits(a, b);
    DashThenDigits(a + "-" + b, c);
    assert a + b + c == n;
  }

  /** A dash followed by digits contributes exactly those digits. */
  lemma DashThenDigits(x: string, y: string)
    requires AllDigits(y)
    ensures KeepDigits(x + "-" + y) == KeepDigits(x) + y
  {
    assert KeepDigits("-") == "";
    KeepDigitsDistributes(x, "-");
    KeepDigitsDistributes(x + "-", y);
  }
}
