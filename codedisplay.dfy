/**
 * client/src/components/CodeDisplay.tsx, its pure helpers only: the grouping
 * of the code (`code.match(/.{1,3}/g)?.join("-") || code`), the digit list,
 * the seconds left, the urgency colour and the expired test.
 */
module CodeDisplay {
  /** The characters the regular expression `.` does not match. */
  predicate IsLineTerminator(c: char) {
    c == '\n' || c == '\r' || c == '\U{2028}' || c == '\U{2029}'
  }

  predicate NoLineTerminator(s: string) {
    forall k :: 0 <= k < |s| ==> !IsLineTerminator(s[k])
  }

  /** The length of the leading run of at most `n` characters `.` matches. */
  function RunLength(s: string, n: nat): (k: nat)
    ensures k <= n && k <= |s|
    ensures NoLineTerminator(s[..k])
    ensures k < n && k < |s| ==> IsLineTerminator(s[k])
    decreases n
  {
    if n == 0 || s == [] || IsLineTerminator(s[0]) then 0
    else
      var k := 1 + RunLength(s[1..], n - 1);
      assert s[..k] == [s[0]] + s[1..][..k - 1];
      k
  }

  /** The matches of `/.{1,3}/g`, left to right. */
  function Groups(s: string): seq<string>
    decreases |s|
  {
    if s == [] then []
    else if IsLineTerminator(s[0]) then Groups(s[1..])
    else
      var k := RunLength(s, 3);
      [s[..k]] + Groups(s[k..])
  }

  function Concat(parts: seq<string>): string
    decreases |parts|
  {
    if parts == [] then "" else parts[0] + Concat(parts[1..])
  }

  function Join(parts: seq<string>, sep: string): string
    decreases |parts|
  {
    if parts == [] then ""
    else if |parts| == 1 then parts[0]
    else parts[0] + sep + Join(parts[1..], sep)
  }

  /** The code without the characters `.` does not match. */
  function WithoutLineTerminators(s: string): string
    decreases |s|
  {
    if s == [] then ""
    else (if IsLineTerminator(s[0]) then "" else [s[0]]) + WithoutLineTerminators(s[1..])
  }

  /** `formattedCode`: no match gives `null`, and `null?.join("-") || code` is the code itself. */
  function FormatCode(code: string): string {
    var groups := Groups(code);
    if groups == [] then code else Join(groups, "-")
  }

  lemma ConcatCons(first: string, rest: seq<string>)
    ensures Concat([first] + rest) == first + Concat(rest)
  {
    assert ([first] + rest)[1..] == rest;
  }

  /** A group that is not a line terminator starts with a run of up to three characters. */
  lemma GroupsUnfold(s: string)
    requires s != [] && !IsLineTerminator(s[0])
    ensures Groups(s) == [s[..RunLength(s, 3)]] + Groups(s[RunLength(s, 3)..])
    ensures 1 <= RunLength(s, 3)
  {
  }

  /** Every group holds one to three matched characters. */
  lemma {:induction false} GroupsSizes(s: string)
    ensures forall i :: 0 <= i < |Groups(s)| ==> 1 <= |Groups(s)[i]| <= 3 && NoLineTerminator(Groups(s)[i])
    decreases |s|
  {
    if s == [] {
    } else if IsLineTerminator(s[0]) {
      GroupsSizes(s[1..]);
    } else {
      var k := RunLength(s, 3);
      GroupsUnfold(s);
      GroupsSizes(s[k..]);
    }
  }

  /** Together the groups are the code without its line terminators. */
  lemma {:induction false} GroupsCover(s: string)
    ensures Concat(Groups(s)) == WithoutLineTerminators(s)
    decreases |s|
  {
    if s == [] {
    } else if IsLineTerminator(s[0]) {
      GroupsCover(s[1..]);
    } else {
      var k := RunLength(s, 3);
      GroupsUnfold(s);
      GroupsCover(s[k..]);
      ConcatCons(s[..k], Groups(s[k..]));
      WithoutLineTerminatorsOfRun(s, k);
    }
  }

  /** A leading run removes nothing. */
  lemma {:induction false} WithoutLineTerminatorsOfRun(s: string, k: nat)
    requires k <= |s| && NoLineTerminator(s[..k])
    ensures WithoutLineTerminators(s) == s[..k] + WithoutLineTerminators(s[k..])
    decreases k
  {
    if k > 0 {
      assert !IsLineTerminator(s[..k][0]);
      assert s[1..][..k - 1] == s[..k][1..];
      WithoutLineTerminatorsOfRun(s[1..], k - 1);
      assert s[1..][k - 1..] == s[k..];
      assert s[..k] == [s[0]] + s[1..][..k - 1];
    }
  }

  /** For a code without line terminators every group but the last has exactly three characters. */
  lemma {:induction false} GroupsOfThree(s: string)
    requires NoLineTerminator(s)
    ensures forall i :: 0 <= i < |Groups(s)| - 1 ==> |Groups(s)[i]| == 3
    ensures Concat(Groups(s)) == s
    ensures s == [] <==> Groups(s) == []
    decreases |s|
  {
    if s != [] {
      var k := RunLength(s, 3);
      GroupsUnfold(s);
      assert k < |s| ==> !IsLineTerminator(s[k]);
      assert k == 3 || k == |s|;
      var rest := s[k..];
      assert NoLineTerminator(rest) by {
        forall j | 0 <= j < |rest| ensures !IsLineTerminator(rest[j]) { assert rest[j] == s[k + j]; }
      }
      GroupsOfThree(rest);
      ConcatCons(s[..k], Groups(rest));
      assert s == s[..k] + rest;
      if k < 3 {
        assert rest == [];
      }
    }
  }

  /** The empty code formats to the empty string. */
  lemma FormatEmpty()
    ensures FormatCode("") == ""
  {
  }

  /** Three characters without line terminators make one whole group. */
  lemma GroupsThree(s: string)
    requires |s| >= 3 && NoLineTerminator(s[..3])
    ensures Groups(s) == [s[..3]] + Groups(s[3..])
  {
    assert forall j :: 0 <= j < 3 ==> s[j] == s[..3][j];
    GroupsUnfold(s);
  }

  /** A six-character code is shown as two groups of three joined by a dash (`123456` as `123-456`). */
  lemma FormatTwoGroups(a: string, b: string)
    requires |a| == 3 && |b| == 3 && NoLineTerminator(a) && NoLineTerminator(b)
    ensures FormatCode(a + b) == a + "-" + b
  {
    var s := a + b;
    assert s[..3] == a && s[3..] == b;
    GroupsThree(s);
    assert b[..3] == b && b[3..] == [];
    GroupsThree(b);
    assert Groups(s) == [a, b];
    assert Join([a, b], "-") == a + "-" + Join([b], "-");
  }

  /** `code.split("")`: one single-character string per character, in order. */
  function Digits(code: string): (digits: seq<string>)
    ensures |digits| == |code|
    ensures forall i :: 0 <= i < |code| ==> digits[i] == [code[i]]
  {
    seq(|code|, i requires 0 <= i < |code| => [code[i]])
  }

  /** The digits put back together are the code. */
  lemma {:induction false} DigitsConcat(code: string)
    ensures Concat(Digits(code)) == code
    decreases |code|
  {
    if code != [] {
      assert Digits(code)[1..] == Digits(code[1..]);
      DigitsConcat(code[1..]);
      assert code == [code[0]] + code[1..];
    }
  }

  /** `Math.max(0, Math.ceil((expiresAt - now) / 1000))`: whole seconds left, rounded up. */
  function TimeLeft(expiresAt: int, now: int): (r: nat)
    ensures r == 0 <==> now >= expiresAt
    ensures now < expiresAt ==> (r - 1) * 1000 < expiresAt - now <= r * 1000
  {
    // The ceiling of d / 1000 is minus the floor of -d / 1000, and Dafny's
    // division by a positive divisor is the floor.
    var q := -((now - expiresAt) / 1000);
    if q < 0 then 0 else q
  }

  datatype Urgency = Red | Amber | Primary

  /** `progressColor`. */
  function ProgressColor(timeLeft: int): Urgency {
    if timeLeft < 10 then Red else if timeLeft < 30 then Amber else Primary
  }

  /** The countdown shows the expired view exactly when no time is left. */
  predicate ShowsExpired(timeLeft: int) {
    timeLeft == 0
  }

  /** The colour by the milliseconds left: red up to 9 s, amber up to 29 s, primary beyond. */
  lemma ColorByRemaining(expiresAt: int, now: int)
    ensures ProgressColor(TimeLeft(expiresAt, now)) == Red <==> expiresAt - now <= 9000
    ensures ProgressColor(TimeLeft(expiresAt, now)) == Amber <==> 9000 < expiresAt - now <= 29000
    ensures ProgressColor(TimeLeft(expiresAt, now)) == Primary <==> expiresAt - now > 29000
  {
  }

  /** The expired view is shown exactly from the expiry instant on. */
  lemma ExpiredViewFromExpiry(expiresAt: int, now: int)
    ensures ShowsExpired(TimeLeft(expiresAt, now)) <==> now >= expiresAt
  {
  }
}
