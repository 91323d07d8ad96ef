/**
 * `formatMacAddress` of the label screen (ModifyPrinter.js): keep hex digits
 * and colons, upper-case, drop the colons, keep at most twelve digits, and
 * regroup them in pairs joined by ':'.
 */
module MacAddress {
  import opened Text

  predicate IsHexDigit(c: char)
  {
    '0' <= c <= '9' || 'a' <= c <= 'f' || 'A' <= c <= 'F'
  }

  predicate IsUpperHexDigit(c: char)
  {
    '0' <= c <= '9' || 'A' <= c <= 'F'
  }

  /** The characters a formatted address can hold. */
  predicate IsMacChar(c: char)
  {
    IsUpperHexDigit(c) || c == ':'
  }

  /** `value.replace(/[^a-fA-F0-9:]/g, '')`. */
  function KeepHexAndColons(s: string): (r: string)
    ensures |r| <= |s|
    ensures forall i :: 0 <= i < |r| ==> IsHexDigit(r[i]) || r[i] == ':'
  {
    if s == [] then []
    else (if IsHexDigit(s[0]) || s[0] == ':' then [s[0]] else []) + KeepHexAndColons(s[1..])
  }

  /** `s.replace(/:/g, '')`. */
  function RemoveColons(s: string): (r: string)
    ensures |r| <= |s|
    ensures ':' !in r
  {
    if s == [] then [] else (if s[0] == ':' then [] else [s[0]]) + RemoveColons(s[1..])
  }

  /** `limited.match(/.{1,2}/g).join(':')`: pairs of characters, the last one possibly single. */
  function GroupPairs(d: string): (r: string)
    ensures d != [] ==> |r| == |d| + (|d| - 1) / 2
    decreases |d|
  {
    if |d| <= 2 then d else d[..2] + ":" + GroupPairs(d[2..])
  }

  function Min(a: int, b: int): int
  {
    if a <= b then a else b
  }

  /** `formatMacAddress`. */
  function FormatMacAddress(value: string): string
  {
    var cleaned := Upper(KeepHexAndColons(value));
    var noColons := RemoveColons(cleaned);
    var limited := noColons[..Min(12, |noColons|)];
    if |limited| == 0 then "" else GroupPairs(limited)
  }

  /** The reference: the hex digits of the input, upper-cased, in their original order. */
  function HexDigits(s: string): (r: string)
    ensures |r| <= |s|
    ensures forall i :: 0 <= i < |r| ==> IsUpperHexDigit(r[i])
  {
    if s == [] then [] else (if IsHexDigit(s[0]) then [UpperChar(s[0])] else []) + HexDigits(s[1..])
  }

  /** The digits an address keeps: the first twelve hex digits of the input, or all of them if fewer. */
  function KeptDigits(value: string): (kept: string)
    ensures |kept| <= 12
  {
    var digits := HexDigits(value);
    digits[..Min(12, |digits|)]
  }

  lemma UpperConsOne(c: char, rest: string)
    ensures Upper([c] + rest) == [UpperChar(c)] + Upper(rest)
  {
    assert Upper([c] + rest)[0] == UpperChar(c);
    forall k | 1 <= k < |rest| + 1 ensures Upper([c] + rest)[k] == ([UpperChar(c)] + Upper(rest))[k] {
      assert ([c] + rest)[k] == rest[k - 1];
    }
  }

  /** Cleaning, upper-casing and dropping colons leaves exactly the upper-cased hex digits. */
  lemma {:induction false} CleanedDigits(s: string)
    ensures RemoveColons(Upper(KeepHexAndColons(s))) == HexDigits(s)
    decreases |s|
  {
    if s != [] {
      CleanedDigits(s[1..]);
      var rest := KeepHexAndColons(s[1..]);
      if IsHexDigit(s[0]) || s[0] == ':' {
        UpperConsOne(s[0], rest);
        var u := [UpperChar(s[0])] + Upper(rest);
        assert u[0] == UpperChar(s[0]) && u[1..] == Upper(rest);
      } else {
        assert KeepHexAndColons(s) == rest;
      }
    }
  }

  /** FormatMacAddress is the grouping of the kept digits, and "" when there are none. */
  lemma FormatMacAddressGroupsKeptDigits(value: string)
    ensures FormatMacAddress(value) == if KeptDigits(value) == [] then "" else GroupPairs(KeptDigits(value))
  {
    CleanedDigits(value);
  }

  /** Where the colons of a grouping fall, and which digit sits everywhere else. */
  lemma {:induction false} GroupPairsLayout(d: string)
    ensures forall i :: 0 <= i < |GroupPairs(d)| ==>
              GroupPairs(d)[i] == if i % 3 == 2 then ':' else d[i - i / 3]
    decreases |d|
  {
    if |d| > 2 {
      GroupPairsLayout(d[2..]);
      var r := GroupPairs(d);
      var tail := GroupPairs(d[2..]);
      assert r == d[..2] + ":" + tail;
      forall i | 0 <= i < |r| ensures r[i] == if i % 3 == 2 then ':' else d[i - i / 3] {
        if i >= 3 {
          var j := i - 3;
          assert r[i] == tail[j];
          assert j % 3 == i % 3 && j / 3 == i / 3 - 1;
          if j % 3 != 2 {
            assert tail[j] == d[2..][j - j / 3];
            assert d[2..][j - j / 3] == d[i - i / 3];
          }
        } else {
          assert i / 3 == 0;
        }
      }
    }
  }

  lemma RemoveColonsAppend(a: string, b: string)
    ensures RemoveColons(a + b) == RemoveColons(a) + RemoveColons(b)
    decreases |a|
  {
    if a != [] {
      assert (a + b)[1..] == a[1..] + b;
      RemoveColonsAppend(a[1..], b);
    } else {
      assert a + b == b;
    }
  }

  /** Dropping the colons of a grouping gives back the digits. */
  lemma {:induction false} RemoveColonsGroupPairs(d: string)
    requires ':' !in d
    ensures RemoveColons(GroupPairs(d)) == d
    decreases |d|
  {
    if |d| <= 2 {
      RemoveColonsOfColonFree(d);
    } else {
      RemoveColonsGroupPairs(d[2..]);
      RemoveColonsAppend(d[..2] + ":", GroupPairs(d[2..]));
      RemoveColonsAppend(d[..2], ":");
      RemoveColonsOfColonFree(d[..2]);
      assert d[..2] + d[2..] == d;
    }
  }

  lemma {:induction false} RemoveColonsOfColonFree(d: string)
    requires ':' !in d
    ensures RemoveColons(d) == d
    decreases |d|
  {
    if d != [] {
      assert d == [d[0]] + d[1..];
      RemoveColonsOfColonFree(d[1..]);
    }
  }

  /**
   * The formatted address holds only 0-9, A-F and ':'; its colons sit exactly
   * at the positions 2, 5, 8, ...; dropping them gives the kept digits; and
   * its length is that of the kept digits plus one colon per full pair after
   * the first, so never more than 17.
   */
  lemma FormatMacAddressShape(value: string)
    ensures var mac := FormatMacAddress(value);
            var kept := KeptDigits(value);
            && (forall i :: 0 <= i < |mac| ==> IsMacChar(mac[i]))
            && (forall i :: 0 <= i < |mac| ==> (mac[i] == ':' <==> i % 3 == 2))
            && RemoveColons(mac) == kept
            && (kept != [] ==> |mac| == |kept| + (|kept| - 1) / 2)
            && |mac| <= 17
  {
    FormatMacAddressGroupsKeptDigits(value);
    var kept := KeptDigits(value);
    if kept != [] {
      GroupPairsLayout(kept);
      assert ':' !in kept by {
        forall i | 0 <= i < |kept| ensures kept[i] != ':' {
          assert IsUpperHexDigit(kept[i]);
        }
      }
      RemoveColonsGroupPairs(kept);
      var mac := FormatMacAddress(value);
      forall i | 0 <= i < |mac| ensures IsMacChar(mac[i]) && (mac[i] == ':' <==> i % 3 == 2) {
        if i % 3 != 2 {
          assert IsUpperHexDigit(kept[i - i / 3]);
        }
      }
    }
  }

  /** The result is empty exactly when the input holds no hex digit. */
  lemma FormatMacAddressEmptyIff(value: string)
    ensures FormatMacAddress(value) == "" <==> forall i :: 0 <= i < |value| ==> !IsHexDigit(value[i])
  {
    FormatMacAddressGroupsKeptDigits(value);
    NoHexDigitsIff(value);
    if KeptDigits(value) != [] {
      assert |GroupPairs(KeptDigits(value))| >= 1;
    }
  }

  lemma {:induction false} NoHexDigitsIff(s: string)
    ensures HexDigits(s) == [] <==> forall i :: 0 <= i < |s| ==> !IsHexDigit(s[i])
    decreases |s|
  {
    if s != [] {
      NoHexDigitsIff(s[1..]);
      if forall i :: 0 <= i < |s| - 1 ==> !IsHexDigit(s[1..][i]) {
        if !IsHexDigit(s[0]) {
          forall i | 0 <= i < |s| ensures !IsHexDigit(s[i]) {
            if i > 0 { assert s[i] == s[1..][i - 1]; }
          }
        }
      } else {
        var i :| 0 <= i < |s| - 1 && IsHexDigit(s[1..][i]);
        assert IsHexDigit(s[i + 1]);
      }
    }
  }

  /** The address has the full length 17 of "XX:XX:XX:XX:XX:XX" exactly when the input has at least twelve hex digits. */
  lemma FormatMacAddressFullLength(value: string)
    ensures |FormatMacAddress(value)| == 17 <==> |HexDigits(value)| >= 12
  {
    FormatMacAddressShape(value);
    FormatMacAddressGroupsKeptDigits(value);
  }

  /** Every character of a formatted address is kept by cleaning and unchanged by upper-casing. */
  lemma {:induction false} HexDigitsOfMacChars(s: string)
    requires forall i :: 0 <= i < |s| ==> IsMacChar(s[i])
    ensures HexDigits(s) == RemoveColons(s)
    decreases |s|
  {
    if s != [] {
      HexDigitsOfMacChars(s[1..]);
    }
  }

  /** Formatting an already formatted address changes nothing. */
  lemma FormatMacAddressIdempotent(value: string)
    ensures FormatMacAddress(FormatMacAddress(value)) == FormatMacAddress(value)
  {
    var mac := FormatMacAddress(value);
    var kept := KeptDigits(value);
    FormatMacAddressShape(value);
    HexDigitsOfMacChars(mac);
    assert HexDigits(mac) == kept;
    assert KeptDigits(mac) == kept;
    FormatMacAddressGroupsKeptDigits(value);
    FormatMacAddressGroupsKeptDigits(mac);
  }
}
