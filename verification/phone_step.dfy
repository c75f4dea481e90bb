/**
 * src/screens/register/PhoneStep.tsx: the phone number field keeps the
 * digits typed and shows them as ddd-dddd-dddd.
 */
module PhoneStep {
  import Text

  /** `s.replace(/-/g, "")`. */
  function RemoveDashes(s: string): (r: string)
    ensures |r| <= |s|
    ensures '-' !in r
  {
    if s == [] then [] else (if s[0] == '-' then [] else [s[0]]) + RemoveDashes(s[1..])
  }

  lemma {:induction false} RemoveDashesAppend(a: string, b: string)
    ensures RemoveDashes(a + b) == RemoveDashes(a) + RemoveDashes(b)
  {
    if a != [] {
      assert (a + b)[1..] == a[1..] + b;
      RemoveDashesAppend(a[1..], b);
    } else {
      assert a + b == b;
    }
  }

  lemma RemoveDashesDigits(s: string)
    requires forall i :: 0 <= i < |s| ==> Text.IsDigit(s[i])
    ensures RemoveDashes(s) == s
  {
  }

  /** `slice(from, to)` for 0 <= from. */
  function Slice(s: string, from: nat, to: nat): (r: string)
    ensures from <= to ==> |r| <= to - from
    ensures forall i :: 0 <= i < |r| ==> r[i] in s
  {
    if from >= |s| || from >= to then [] else s[from..if to < |s| then to else |s|]
  }

  /** formatPhoneNumber (lines 14-19). */
  function FormatPhoneNumber(value: string): (r: string)
    ensures |r| <= 13
    ensures forall i :: 0 <= i < |r| ==> Text.IsDigit(r[i]) || r[i] == '-'
  {
    var numbers := Text.Digits(value);
    if |numbers| <= 3 then numbers
    else if |numbers| <= 7 then Slice(numbers, 0, 3) + "-" + Slice(numbers, 3, |numbers|)
    else Slice(numbers, 0, 3) + "-" + Slice(numbers, 3, 7) + "-" + Slice(numbers, 7, 11)
  }

  /**
   * Taking the dashes out of the formatted number gives the first eleven
   * digits of the input; up to three digits come back as they are, up to
   * seven as ddd-rest, and longer input as ddd-dddd-dd..d.
   */
  lemma FormatPhoneNumberSpec(value: string)
    ensures var n := Text.Digits(value);
            RemoveDashes(FormatPhoneNumber(value)) == n[..if |n| < 11 then |n| else 11]
    ensures var n := Text.Digits(value);
            (|n| <= 3 ==> FormatPhoneNumber(value) == n)
            && (3 < |n| <= 7 ==> FormatPhoneNumber(value) == n[..3] + "-" + n[3..])
            && (7 < |n| ==> FormatPhoneNumber(value) == n[..3] + "-" + n[3..7] + "-" + n[7..if |n| < 11 then |n| else 11])
  {
    var n := Text.Digits(value);
    assert n[..|n|] == n;
    if |n| <= 3 {
      RemoveDashesDigits(n);
    } else if |n| <= 7 {
      assert Slice(n, 0, 3) == n[..3] && Slice(n, 3, |n|) == n[3..];
      DashesOfMiddle(n);
    } else {
      var m := if |n| < 11 then |n| else 11;
      assert Slice(n, 0, 3) == n[..3] && Slice(n, 3, 7) == n[3..7] && Slice(n, 7, 11) == n[7..m];
      DashesOfLong(n[..m]);
      assert n[..m][..3] == n[..3] && n[..m][3..7] == n[3..7] && n[..m][7..] == n[7..m];
    }
  }

  lemma DashesOfMiddle(n: string)
    requires forall i :: 0 <= i < |n| ==> Text.IsDigit(n[i])
    requires 3 < |n|
    ensures RemoveDashes(n[..3] + "-" + n[3..]) == n
  {
    var a, b := n[..3], n[3..];
    assert RemoveDashes(a + "-") == a by {
      RemoveDashesAppend(a, "-");
      RemoveDashesDigits(a);
    }
    assert RemoveDashes(b) == b by {
      RemoveDashesDigits(b);
    }
    RemoveDashesAppend(a + "-", b);
    assert a + b == n;
  }

  lemma DashesOfLong(n: string)
    requires forall i :: 0 <= i < |n| ==> Text.IsDigit(n[i])
    requires 7 < |n|
    ensures RemoveDashes(n[..3] + "-" + n[3..7] + "-" + n[7..]) == n
  {
    RemoveDashesAppend(n[..3] + "-" + n[3..7] + "-", n[7..]);
    RemoveDashesAppend(n[..3] + "-" + n[3..7], "-");
    DashesOfMiddle(n[..7]);
    assert n[..7][..3] == n[..3] && n[..7][3..] == n[3..7];
    RemoveDashesDigits(n[7..]);
    assert n[..7] + n[7..] == n;
  }

  /** handlePhoneChange (lines 21-26): the guard never rejects a formatted number. */
  function PhoneAfterChange(phone: string, input: string): string
  {
    var formatted := FormatPhoneNumber(input);
    if |RemoveDashes(formatted)| <= 11 then formatted else phone
  }

  lemma PhoneChangeAlwaysTaken(phone: string, input: string)
    ensures PhoneAfterChange(phone, input) == FormatPhoneNumber(input)
  {
    FormatPhoneNumberSpec(input);
  }

  /** The send button of line 71. */
  predicate CanSend(phone: string)
  {
    |RemoveDashes(phone)| >= 10
  }

  /** After typing, the code can be sent exactly when at least ten digits were typed. */
  lemma CanSendSpec(phone: string, input: string)
    ensures CanSend(PhoneAfterChange(phone, input)) <==> |Text.Digits(input)| >= 10
  {
    FormatPhoneNumberSpec(input);
    PhoneChangeAlwaysTaken(phone, input);
  }
}
