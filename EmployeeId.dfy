/** Employee-ID derivation of src/hooks/useEmployeeId.ts: a three-letter
    department prefix, "-", and a sequence number one past the count of
    existing IDs with that prefix, left-padded with '0' to three digits.
    When the look-up of existing records fails the number is the last three
    digits of the clock, which is a parameter here. */
module EmployeeId {
  import opened Js
  import opened EmployeeTypes

  // ------------------------------------------------------- decimal text

  predicate IsDigit(c: char)
  {
    '0' <= c <= '9'
  }

  predicate AllDigits(s: string)
  {
    forall i :: 0 <= i < |s| ==> IsDigit(s[i])
  }

  function DigitChar(d: nat): (c: char)
    requires d < 10
    ensures IsDigit(c)
  {
    ('0' as int + d) as char
  }

  /** `n.toString()` for a non-negative integer. */
  function DecimalText(n: nat): (s: string)
    ensures |s| >= 1 && AllDigits(s)
    ensures |s| > 1 ==> s[0] != '0'
    decreases n
  {
    if n < 10 then [DigitChar(n)] else DecimalText(n / 10) + [DigitChar(n % 10)]
  }

  /** The number a digit string denotes, leading zeros allowed. */
  function DecimalValue(s: string): nat
    requires AllDigits(s)
    decreases |s|
  {
    if s == [] then 0
    else DecimalValue(s[..|s| - 1]) * 10 + (s[|s| - 1] as int - '0' as int)
  }

  lemma {:induction false} DecimalRoundTrip(n: nat)
    ensures DecimalValue(DecimalText(n)) == n
    decreases n
  {
    if n >= 10 {
      DecimalRoundTrip(n / 10);
      var s := DecimalText(n);
      assert s[..|s| - 1] == DecimalText(n / 10);
    }
  }

  // ------------------------------------------------------------ padding

  function Repeat(c: char, k: nat): (r: string)
    ensures |r| == k
    ensures forall i :: 0 <= i < k ==> r[i] == c
  {
    if k == 0 then [] else Repeat(c, k - 1) + [c]
  }

  /** `s.padStart(width, c)`: never truncates. */
  function PadStart(s: string, width: nat, c: char): (r: string)
    ensures |r| == if |s| >= width then |s| else width
    ensures r[|r| - |s|..] == s
    ensures forall i :: 0 <= i < |r| - |s| ==> r[i] == c
  {
    if |s| >= width then s else Repeat(c, width - |s|) + s
  }

  /** `s.padEnd(width, c)`: never truncates. */
  function PadEnd(s: string, width: nat, c: char): (r: string)
    ensures |r| == if |s| >= width then |s| else width
    ensures r[..|s|] == s
    ensures forall i :: |s| <= i < |r| ==> r[i] == c
  {
    if |s| >= width then s else s + Repeat(c, width - |s|)
  }

  lemma {:induction false} ZerosValue(k: nat)
    ensures AllDigits(Repeat('0', k)) && DecimalValue(Repeat('0', k)) == 0
  {
    if k > 0 {
      ZerosValue(k - 1);
      assert Repeat('0', k)[..k - 1] == Repeat('0', k - 1);
    }
  }

  /** Leading zeros do not change the value of a digit string. */
  lemma {:induction false} LeadingZeros(k: nat, s: string)
    requires AllDigits(s)
    ensures AllDigits(Repeat('0', k) + s)
    ensures DecimalValue(Repeat('0', k) + s) == DecimalValue(s)
    decreases |s|
  {
    var z := Repeat('0', k);
    ZerosValue(k);
    if s == [] {
      assert z + s == z;
    } else {
      var u := z + s;
      LeadingZeros(k, s[..|s| - 1]);
      assert u[..|u| - 1] == z + s[..|s| - 1];
      assert u[|u| - 1] == s[|s| - 1];
    }
  }

  // ------------------------------------------------------------- the parts

  /** `s.toUpperCase()` on ASCII letters. */
  function Upper(s: string): (u: string)
    ensures |u| == |s|
    ensures forall i :: 0 <= i < |s| ==> u[i] == AsciiUpper(s[i])
  {
    seq(|s|, i requires 0 <= i < |s| => AsciiUpper(s[i]))
  }

  /** `s.substring(0, n)`. */
  function Take(s: string, n: nat): (t: string)
    ensures |t| == if |s| <= n then |s| else n
    ensures t <= s
  {
    if |s| <= n then s else s[..n]
  }

  /** `department.substring(0, 3).toUpperCase().padEnd(3, "X")`. */
  function DeptPrefix(department: string): (p: string)
    ensures |p| == 3
    ensures forall i :: 0 <= i < 3 ==> p[i] == if i < |department| then AsciiUpper(department[i]) else 'X'
  {
    PadEnd(Upper(Take(department, 3)), 3, 'X')
  }

  /** `existing.filter(info => info.employeeId.startsWith(prefix)).length`. */
  function CountWithPrefix(existing: seq<BasicInfo>, prefix: string): (n: nat)
    ensures n <= |existing|
    ensures n == 0 <==> forall i :: 0 <= i < |existing| ==> !(prefix <= existing[i].employeeId)
    ensures n == |existing| <==> forall i :: 0 <= i < |existing| ==> prefix <= existing[i].employeeId
    decreases |existing|
  {
    if existing == [] then 0
    else (if prefix <= existing[0].employeeId then 1 else 0) + CountWithPrefix(existing[1..], prefix)
  }

  lemma {:induction false} CountAppend(existing: seq<BasicInfo>, b: BasicInfo, prefix: string)
    ensures CountWithPrefix(existing + [b], prefix) ==
            CountWithPrefix(existing, prefix) + (if prefix <= b.employeeId then 1 else 0)
    decreases |existing|
  {
    if existing != [] {
      CountAppend(existing[1..], b, prefix);
      assert (existing + [b])[1..] == existing[1..] + [b];
    }
  }

  /** `(count + 1).toString().padStart(3, "0")`. */
  function SequenceText(count: nat): string
  {
    PadStart(DecimalText(count + 1), 3, '0')
  }

  /** The sequence part has at least three digits, ends with the full
      decimal text of `count + 1` (so 1000 is written "1000", not cut to
      three digits) and denotes `count + 1`. */
  lemma SequenceTextFacts(count: nat)
    ensures |SequenceText(count)| >= 3 && AllDigits(SequenceText(count))
    ensures count + 1 >= 1000 ==> SequenceText(count) == DecimalText(count + 1)
    ensures DecimalValue(SequenceText(count)) == count + 1
  {
    var d := DecimalText(count + 1);
    DecimalRoundTrip(count + 1);
    if |d| < 3 {
      LeadingZeros(3 - |d|, d);
    }
    if count + 1 >= 1000 {
      DecimalAtLeast(count + 1);
    }
  }

  lemma {:induction false} DecimalAtLeast(n: nat)
    requires n >= 1000
    ensures |DecimalText(n)| >= 4
  {
    if n / 10 >= 1000 {
      DecimalAtLeast(n / 10);
    } else {
      assert n / 10 >= 100;
      assert |DecimalText(n / 10 / 10)| >= 1;
    }
  }

  /** `value.slice(-n)`: the last `n` characters, or all of a shorter string. */
  function LastChars(s: string, n: nat): (t: string)
    requires n > 0
    ensures |t| == if |s| <= n then |s| else n
    ensures t == s[|s| - |t|..]
  {
    Slice(s, -(n as int), |s|)
  }

  /** What the hook's effect stores for `department`: "" for an empty
      department (no look-up is made), the counted sequence when the look-up
      of existing records returned, and the clock's last three digits when
      it failed. */
  function GenerateEmployeeId(department: string, lookup: Option<seq<BasicInfo>>, nowMillis: nat): (id: string)
    ensures id == "" <==> department == ""
    ensures department != "" ==> |id| >= 5 && id[..3] == DeptPrefix(department) && id[3] == '-'
  {
    if department == "" then ""
    else
      var prefix := DeptPrefix(department);
      match lookup
      case Some(existing) => prefix + "-" + SequenceText(CountWithPrefix(existing, prefix))
      case None => prefix + "-" + LastChars(DecimalText(nowMillis), 3)
  }

  /** Parsing a generated ID back: the prefix, "-", and a digit string of at
      least three characters denoting one more than the prefix count. */
  lemma GeneratedIdParts(department: string, existing: seq<BasicInfo>, nowMillis: nat)
    requires department != ""
    ensures var id := GenerateEmployeeId(department, Some(existing), nowMillis);
            var prefix := DeptPrefix(department);
            |id| >= 7 && id[..4] == prefix + "-" && prefix <= id &&
            AllDigits(id[4..]) && DecimalValue(id[4..]) == CountWithPrefix(existing, prefix) + 1
  {
    var prefix := DeptPrefix(department);
    var count := CountWithPrefix(existing, prefix);
    var id := GenerateEmployeeId(department, Some(existing), nowMillis);
    SequenceTextFacts(count);
    assert id == prefix + "-" + SequenceText(count);
    assert id[4..] == SequenceText(count);
    assert id[..3] == prefix;
  }

  /** Once a generated ID is among the existing records, the next ID for the
      same department counts one more and so differs from it. */
  lemma NextIdDiffers(department: string, existing: seq<BasicInfo>, saved: BasicInfo, t1: nat, t2: nat)
    requires department != ""
    requires saved.employeeId == GenerateEmployeeId(department, Some(existing), t1)
    ensures GenerateEmployeeId(department, Some(existing + [saved]), t2) != saved.employeeId
  {
    var prefix := DeptPrefix(department);
    GeneratedIdParts(department, existing, t1);
    GeneratedIdParts(department, existing + [saved], t2);
    CountAppend(existing, saved, prefix);
  }
}
