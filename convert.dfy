/** Helpers of the endpoint layer: joining lists for the API and checking order times. */
module Convert {
  import opened Wrappers
  import opened Text
  import opened Params
  import opened Errors

  /** commasep(entryList, sep): sep.join(entryList). */
  function Join(xs: seq<string>, sep: string): string {
    if |xs| == 0 then ""
    else if |xs| == 1 then xs[0]
    else xs[0] + sep + Join(xs[1..], sep)
  }

  function TotalLength(xs: seq<string>): nat {
    if |xs| == 0 then 0 else |xs[0]| + TotalLength(xs[1..])
  }

  lemma JoinSmall(x: string, sep: string)
    ensures Join([], sep) == ""
    ensures Join([x], sep) == x
  {
  }

  /** The joined text holds every element and one separator between neighbours. */
  lemma {:induction false} JoinLength(xs: seq<string>, sep: string)
    requires |xs| >= 1
    ensures |Join(xs, sep)| == TotalLength(xs) + (|xs| - 1) * |sep|
  {
    if |xs| > 1 {
      JoinLength(xs[1..], sep);
      calc {
        |Join(xs, sep)|;
        |xs[0]| + |sep| + |Join(xs[1..], sep)|;
        |xs[0]| + |sep| + TotalLength(xs[1..]) + (|xs| - 2) * |sep|;
        { assert |sep| + (|xs| - 2) * |sep| == (|xs| - 1) * |sep|; }
        TotalLength(xs) + (|xs| - 1) * |sep|;
      }
    }
  }

  /** s.split(c) for a one-character separator: the pieces between occurrences of c. */
  function SplitOn(s: string, c: char): (r: seq<string>)
    ensures |r| >= 1
  {
    if s == [] then [""]
    else
      var rest := SplitOn(s[1..], c);
      if s[0] == c then [""] + rest else [[s[0]] + rest[0]] + rest[1..]
  }

  lemma {:induction false} SplitPiece(x: string, c: char, tail: string)
    requires c !in x
    ensures SplitOn(x + [c] + tail, c) == [x] + SplitOn(tail, c)
    ensures SplitOn(x, c) == [x]
  {
    if x == [] {
      assert x + [c] + tail == [c] + tail;
      assert ([c] + tail)[1..] == tail;
    } else {
      SplitPiece(x[1..], c, tail);
      assert (x + [c] + tail)[1..] == x[1..] + [c] + tail;
      assert [x[0]] + x[1..] == x;
    }
  }

  /**
   * Splitting the comma-joined list on the separator gives the list back, when
   * no element contains the separator.
   */
  lemma {:induction false} JoinSplitRoundTrip(xs: seq<string>, c: char)
    requires |xs| >= 1
    requires forall i :: 0 <= i < |xs| ==> c !in xs[i]
    ensures SplitOn(Join(xs, [c]), c) == xs
  {
    if |xs| == 1 {
      SplitPiece(xs[0], c, "");
    } else {
      JoinSplitRoundTrip(xs[1..], c);
      SplitPiece(xs[0], c, Join(xs[1..], [c]));
      assert [xs[0]] + xs[1..] == xs;
    }
  }

  /** The length of the longest prefix of s made of decimal digits. */
  function LeadingDigits(s: string): (n: nat)
    ensures n <= |s|
    ensures AllDigits(s[..n])
    ensures n < |s| ==> !IsDigit(s[n])
  {
    if s == [] || !IsDigit(s[0]) then 0
    else
      var m := LeadingDigits(s[1..]);
      assert s[..m + 1] == [s[0]] + s[1..][..m];
      m + 1
  }

  /** re.match('^\d+', s) succeeds: some non-empty prefix of s is all digits. */
  ghost predicate MatchesDigits(s: string) {
    exists k :: 1 <= k <= |s| && AllDigits(s[..k])
  }

  /** The greedy scan finds a match exactly when the regular expression does. */
  lemma LeadingDigitsMatch(s: string)
    ensures LeadingDigits(s) >= 1 <==> MatchesDigits(s)
    ensures LeadingDigits(s) >= 1 <==> |s| >= 1 && IsDigit(s[0])
  {
    if LeadingDigits(s) >= 1 {
      assert AllDigits(s[..LeadingDigits(s)]);
    }
    if MatchesDigits(s) {
      var k :| 1 <= k <= |s| && AllDigits(s[..k]);
      assert s[..k][0] == s[0];
    }
  }

  const OTimeHelp := "+<n> = schedule start time <n> seconds from now <n> = unix timestamp of start time"

  /**
   * parseOTime: accepts "+<digits>..." or "<digits>..." (anything may follow
   * the digits) and then returns None, which the caller stores; raises
   * BadParamterError otherwise.
   */
  function ParseOTime(t: string): (r: Result<Value, KrakenError>)
    ensures r.Success? <==> (|t| >= 2 && t[0] == '+' && IsDigit(t[1])) || (|t| >= 1 && IsDigit(t[0]))
    ensures r.Success? ==> r.value == NoneV
    ensures r.Failure? ==> r.error == BadParamterError(OTimeHelp)
  {
    LeadingDigitsMatch(t);
    LeadingDigitsMatch(if t == [] then t else t[1..]);
    var plusDigits := |t| >= 1 && t[0] == '+' && LeadingDigits(t[1..]) >= 1;
    var digits := LeadingDigits(t) >= 1;
    if plusDigits || digits then Success(NoneV) else Failure(BadParamterError(OTimeHelp))
  }

  /**
   * parseOTime has no return statement on its accepting path, so whatever
   * time it accepts, the value the caller stores is the same None.
   */
  lemma ParseOTimeForgetsTime()
    ensures ParseOTime("+60") == ParseOTime("1700000000") == Success(NoneV)
  {
  }

  /** parseOTime returning the time it accepted, as its callers store it. */
  function ParseOTimeCorrected(t: string): (r: Result<Value, KrakenError>)
    ensures r.Success? <==> ParseOTime(t).Success?
    ensures r.Success? ==> r.value == StrV(t)
    ensures r.Failure? ==> r.error == BadParamterError(OTimeHelp)
  {
    if ParseOTime(t).Success? then Success(StrV(t)) else Failure(BadParamterError(OTimeHelp))
  }

  /** Two different accepted times are stored as two different values. */
  lemma ParseOTimeCorrectedKeepsTime(s: string, t: string)
    requires ParseOTimeCorrected(s).Success? && ParseOTimeCorrected(t).Success?
    ensures ParseOTimeCorrected(s) == ParseOTimeCorrected(t) <==> s == t
  {
  }

  lemma ParseOTimeExamples()
    ensures ParseOTime("12abc").Success? && ParseOTime("+5").Success? && ParseOTime("1").Success?
    ensures ParseOTime("").Failure? && ParseOTime("+").Failure? && ParseOTime("-5").Failure?
    ensures ParseOTime("abc").Failure? && ParseOTime("+x1").Failure?
  {
  }
}
