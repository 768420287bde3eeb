/** Retries: how many, how far apart, and when not (src/job.cpp:74-92, 788-816, 830-891). */
module Retries {
  import opened Maybe
  import opened Text
  import opened Events
  import opened JobSpec
  import opened Live

  /** The delay of an attempt without a usable Retry-After header, for any jitter drawn. */
  predicate BackoffDelay(attempt: int, delay: int) {
    exists jitter :: JitterInRange(attempt, jitter) && delay == BackoffBase(attempt) + jitter
  }

  lemma BackoffValues()
    ensures BackoffBase(1) == 1000 && BackoffBase(2) == 2000 && BackoffBase(3) == 4000
    ensures BackoffBase(4) == 8000 && BackoffBase(5) == 16000 && BackoffBase(6) == 30000
  {
    assert Pow2(1) == 2 && Pow2(2) == 4;
    assert Pow2(3) == 8 && Pow2(4) == 16;
    assert Pow2(5) == 32;
  }

  lemma {:induction false} Pow2Grows(n: nat)
    requires n >= 5
    ensures Pow2(n) >= 32
  {
    if n > 5 {
      Pow2Grows(n - 1);
    } else {
      assert Pow2(5) == 32 by { assert Pow2(3) == 8 && Pow2(4) == 16; }
    }
  }

  /** From the sixth attempt on the base is the cap, so the back-off stops growing. */
  lemma BackoffIsCapped(attempt: int)
    requires attempt >= 6
    ensures BackoffBase(attempt) == 30000
  {
    Pow2Grows(Max(0, Min(attempt - 1, 10)));
  }

  /** For every attempt the delay lies within a quarter of its base. */
  lemma BackoffIsWithinAQuarter(attempt: int, delay: int)
    requires attempt >= 1 && BackoffDelay(attempt, delay)
    ensures 3 * BackoffBase(attempt) <= 4 * delay <= 5 * BackoffBase(attempt)
  {
    hide BackoffBase;
  }

  /** Delays lie within a quarter of the base, and those of attempts one to six never overlap. */
  lemma BackoffIntervalsAreDisjoint(a: int, b: int, earlier: int, later: int)
    requires 1 <= a < b <= 6 && BackoffDelay(a, earlier) && BackoffDelay(b, later)
    ensures 3 * BackoffBase(a) <= 4 * earlier <= 5 * BackoffBase(a)
    ensures earlier < later
  {
    BackoffValues();
  }

  /** The code scales seconds in a 32-bit long: the delay is the promised one exactly when the
      product fits, or wraps to a value the cap still cuts. */
  lemma RetryAfterHonouredIff(seconds: int)
    requires 0 <= seconds <= 0x7FFF_FFFF
    ensures RetryAfterOf(seconds) == Min(60000, 1000 * seconds)
       <==> seconds <= 2147483 || 60000 <= (1000 * seconds) % 0x1_0000_0000 < 0x8000_0000
  {
    if seconds <= 2147483 {
      assert (seconds * 1000 + 0x8000_0000) % 0x1_0000_0000 == seconds * 1000 + 0x8000_0000;
    } else {
      var w := (1000 * seconds) % 0x1_0000_0000;
      assert Long32(seconds * 1000) == if w < 0x8000_0000 then w else w - 0x1_0000_0000;
    }
  }

  lemma {:induction false} ParsedLongFits(s: string)
    ensures ParseLong(s).Some? ==> -0x8000_0000 <= ParseLong(s).value <= 0x7FFF_FFFF
  {
    if s != "" && IsSpace(s[0]) {
      ParsedLongFits(s[1..]);
    }
  }

  /** With a Retry-After the code can scale, the server's wish replaces the back-off, whatever the
      jitter; without a usable one the back-off is used. */
  lemma RetryAfterReplacesBackoff(headers: HeaderList, attempt: int, jitter: int, value: string)
    requires FindHeader(headers, "retry-after") == Some(value)
    ensures ParseLong(value).None? || ParseLong(value).value < 0 ==>
              RetryDelay(headers, attempt, jitter) == BackoffBase(attempt) + jitter
    ensures ParseLong(value).Some? && 0 <= ParseLong(value).value <= 2147483 ==>
              RetryDelay(headers, attempt, jitter) == Min(60000, 1000 * ParseLong(value).value)
  {
    ParsedLongFits(value);
    if ParseLong(value).Some? && 0 <= ParseLong(value).value {
      RetryAfterHonouredIff(ParseLong(value).value);
    }
  }

  // ---------------------------------------------------------------- the header's number, as it is written

  function Digit(n: nat): char
    requires n < 10
  {
    "0123456789"[n]
  }

  /** A number in decimal. */
  function Decimal(n: nat): string {
    (if n < 10 then "" else Decimal(n / 10)) + [Digit(n % 10)]
  }

  predicate StartsWithDigit(s: string) {
    s != "" && s[0] in "0123456789"
  }

  predicate AllIn(s: string, codes: set<int>) {
    forall i :: 0 <= i < |s| ==> s[i] as int in codes
  }

  /** Tab, line feed, vertical tab, form feed, carriage return and space. */
  const SPACES: set<int> := {9, 10, 11, 12, 13, 32}

  lemma DigitIs(c: char)
    ensures IsDigit(c) <==> c in "0123456789"
    ensures IsSpace(c) <==> c as int in SPACES
  {
    if IsDigit(c) {
      assert "0123456789"[c as int - '0' as int] == c;
    }
  }

  lemma {:induction false} DecimalIsRead(n: nat, rest: string)
    ensures DigitsValue(Decimal(n) + rest, 0) == DigitsValue(rest, n)
    ensures StartsWithDigit(Decimal(n))
  {
    hide DigitsValue;
    var d := Digit(n % 10);
    assert d as int == '0' as int + n % 10;
    assert ([d] + rest)[1..] == rest;
    DigitsStep([d] + rest, n / 10);
    if n < 10 {
      assert Decimal(n) + rest == [d] + rest;
    } else {
      DecimalIsRead(n / 10, [d] + rest);
      assert Decimal(n) == Decimal(n / 10) + [d];
      hide Decimal;
      assert Decimal(n) + rest == Decimal(n / 10) + ([d] + rest);
      assert Decimal(n)[0] == Decimal(n / 10)[0];
    }
  }

  lemma {:induction false} ZerosAreSkipped(zeros: string, s: string)
    requires AllIn(zeros, {48})
    ensures DigitsValue(zeros + s, 0) == DigitsValue(s, 0)
  {
    if zeros == "" {
      assert zeros + s == s;
    } else {
      assert zeros[0] == '0' && (zeros + s)[1..] == zeros[1..] + s;
      DigitsStep(zeros + s, 0);
      ZerosAreSkipped(zeros[1..], s);
    }
  }

  lemma {:induction false} SpacesAreSkipped(spaces: string, s: string)
    requires AllIn(spaces, SPACES)
    ensures ParseLong(spaces + s) == ParseLong(s)
  {
    if spaces == "" {
      assert spaces + s == s;
    } else {
      assert (spaces + s)[1..] == spaces[1..] + s;
      DigitIs(spaces[0]);
      SpacesAreSkipped(spaces[1..], s);
    }
  }

  /** A number in decimal is read back, whatever stands before its sign or after its last digit, and cut to
      what a 32-bit long can hold. */
  lemma DecimalRoundTrip(spaces: string, sign: string, zeros: string, n: nat, rest: string)
    requires AllIn(spaces, SPACES) && sign in {"", "+", "-"} && AllIn(zeros, {48})
    requires !StartsWithDigit(rest)
    ensures ParseLong(spaces + (sign + (zeros + (Decimal(n) + rest))))
         == if sign == "-" then Some(if n > 2147483648 then -2147483648 else 0 - n as int)
            else Some(if n > 2147483647 then 2147483647 else n)
  {
    var digits := zeros + (Decimal(n) + rest);
    SpacesAreSkipped(spaces, sign + digits);
    DecimalIsRead(n, rest);
    ZerosAreSkipped(zeros, Decimal(n) + rest);
    if rest != "" {
      DigitIs(rest[0]);
    }
    assert digits[0] == if zeros == "" then Decimal(n)[0] else '0';
    DigitIs(digits[0]);
    assert sign + digits == if sign == "" then digits else [sign[0]] + digits;
    assert sign != "" ==> (sign + digits)[1..] == digits;
    hide DigitsValue, Decimal;
    DigitIs((sign + digits)[0]);
    assert DigitsValue(digits, 0) == n by { EndsThere(rest, n); }
  }

  lemma EndsThere(rest: string, n: nat)
    requires !StartsWithDigit(rest)
    ensures DigitsValue(rest, n) == n
  {
    if rest != "" {
      DigitIs(rest[0]);
    }
  }

  /** Without a digit after the spaces and the sign there is no number, as in a date. */
  lemma NoNumber(spaces: string, sign: string, rest: string)
    requires AllIn(spaces, SPACES) && sign in {"", "+", "-"} && !StartsWithDigit(rest)
    requires sign == "" ==> rest == "" || (rest[0] !in "+-" && rest[0] as int !in SPACES)
    ensures ParseLong(spaces + (sign + rest)) == None
  {
    SpacesAreSkipped(spaces, sign + rest);
    assert sign + rest == if sign == "" then rest else [sign[0]] + rest;
    assert sign != "" ==> (sign + rest)[1..] == rest;
    if sign + rest != "" {
      DigitIs((sign + rest)[0]);
    }
    if rest != "" {
      DigitIs(rest[0]);
    }
  }

  /** The delay before the next attempt, in numbers: what the server asked for, up to a minute; without such
      a header 1, 2, 4, 8, 16 and then 30 seconds, give or take a quarter. */
  lemma DelayMeaning(headers: HeaderList, attempt: int, jitter: int, seconds: nat)
    requires attempt >= 1
    ensures var base := if attempt == 1 then 1000 else if attempt == 2 then 2000 else if attempt == 3 then 4000
                        else if attempt == 4 then 8000 else if attempt == 5 then 16000 else 30000;
            && (JitterInRange(attempt, jitter) <==> -base <= 4 * jitter <= base)
            && (FindHeader(headers, "retry-after").None? ==> RetryDelay(headers, attempt, jitter) == base + jitter)
    ensures FindHeader(headers, "retry-after") == Some(Decimal(seconds)) && seconds <= 2147483 ==>
              RetryDelay(headers, attempt, jitter) == if seconds < 60 then 1000 * seconds else 60000
  {
    BackoffValues();
    if attempt >= 6 {
      BackoffIsCapped(attempt);
    }
    DecimalRoundTrip("", "", "", seconds, "");
    assert "" + ("" + ("" + (Decimal(seconds) + ""))) == Decimal(seconds);
    hide BackoffBase, Decimal, ParseLong, FindHeader;
    if FindHeader(headers, "retry-after") == Some(Decimal(seconds)) {
      RetryAfterReplacesBackoff(headers, attempt, jitter, Decimal(seconds));
    }
  }

  function Sum(delays: seq<int>): int {
    if delays == [] then 0 else Sum(delays[..|delays| - 1]) + delays[|delays| - 1]
  }

  lemma {:induction false} SumIsBounded(delays: seq<int>, most: nat, n: nat)
    requires |delays| <= n && forall i :: 0 <= i < |delays| ==> 0 <= delays[i] <= most
    ensures 0 <= Sum(delays) <= most * n
  {
    if delays != [] {
      SumIsBounded(delays[..|delays| - 1], most, n - 1);
      assert most * n == most * (n - 1) + most;
    }
  }

  /** A server that sends "Retry-After: 4294968" is asked again after 704 milliseconds, where a minute was
      promised; one that sends 2147484, the first value to overflow, is treated as if it had sent none. */
  lemma RetryAfterOverflows(headers: HeaderList, attempt: int, jitter: int)
    ensures FindHeader(headers, "retry-after") == Some("4294968") ==>
              RetryDelay(headers, attempt, jitter) == 704
    ensures FindHeader(headers, "retry-after") == Some("2147484") ==>
              RetryDelay(headers, attempt, jitter) == BackoffBase(attempt) + jitter
  {
    hide BackoffBase, FindHeader;
    SevenDigits();
    FirstToOverflow();
  }

  lemma DigitsStep(s: string, acc: nat)
    requires s != "" && IsDigit(s[0])
    ensures DigitsValue(s, acc) == DigitsValue(s[1..], acc * 10 + (s[0] - '0') as nat)
  {
  }

  lemma DigitsEnd(acc: nat)
    ensures DigitsValue("", acc) == acc
  {
  }

  lemma SevenDigits()
    ensures ParseLong("4294968") == Some(4294968)
  {
    hide DigitsValue;
    DigitsStep("4294968", 0);
    assert "4294968"[1..] == "294968";
    DigitsStep("294968", 4);
    assert "294968"[1..] == "94968";
    DigitsStep("94968", 42);
    assert "94968"[1..] == "4968";
    DigitsStep("4968", 429);
    assert "4968"[1..] == "968";
    DigitsStep("968", 4294);
    assert "968"[1..] == "68";
    DigitsStep("68", 42949);
    assert "68"[1..] == "8";
    DigitsStep("8", 429496);
    assert "8"[1..] == "";
    DigitsEnd(4294968);
  }

  lemma FirstToOverflow()
    ensures ParseLong("2147484") == Some(2147484)
  {
    hide DigitsValue;
    DigitsStep("2147484", 0);
    assert "2147484"[1..] == "147484";
    DigitsStep("147484", 2);
    assert "147484"[1..] == "47484";
    DigitsStep("47484", 21);
    assert "47484"[1..] == "7484";
    DigitsStep("7484", 214);
    assert "7484"[1..] == "484";
    DigitsStep("484", 2147);
    assert "484"[1..] == "84";
    DigitsStep("84", 21474);
    assert "84"[1..] == "4";
    DigitsStep("4", 214748);
    assert "4"[1..] == "";
    DigitsEnd(2147484);
  }

  /** In every state a job has made at most max(0, maxRetries) + 1 attempts, and all its scheduled
      waiting adds up to at most a minute per allowed retry. */
  lemma RetriesTerminate(l: Live)
    requires LiveInv(l)
    ensures l.job.attempt <= Max(0, l.job.spec.config.maxRetries) + 1
    ensures 0 <= Sum(l.delays) <= 60000 * Max(0, l.job.spec.config.maxRetries)
  {
    hide WellFormed, DataOf;
    SumIsBounded(l.delays, RETRY_AFTER_CAP_MS, Max(0, l.job.spec.config.maxRetries));
  }

  /** A request with a data callback is never sent again once any body byte has come: of a stream, of an
      error body, or of a download to a file. */
  lemma StreamNeverRestarts(l: Live, disk: Disk, d: DoneAnswers)
    requires LiveInv(l) && CanFinish(l, d) && l.job.spec.streamData && l.job.response.bodyLength > 0
    ensures DoFinish(l, disk, d).0.job.finished && !DoFinish(l, disk, d).0.job.waitingForRetry
  {
    FinishKeeps(l, disk, d);
    hide WellFormed, DataOf, DiskAfterDone, RetryDelay;
  }

  /** A response with a retryable status is retried, while retries are left, exactly when the job has
      no data callback or the error response came without a body. */
  lemma RetryableStatusIsRetriedIff(l: Live, disk: Disk, d: DoneAnswers)
    requires LiveInv(l) && CanFinish(l, d) && d.code == CurlOk && d.status in {429, 502, 503, 504}
    requires l.job.attempt <= l.job.spec.config.maxRetries
    ensures DoFinish(l, disk, d).0.job.waitingForRetry <==> !l.job.spec.streamData || l.job.response.bodyLength <= 0
    ensures !DoFinish(l, disk, d).0.job.waitingForRetry ==> DoFinish(l, disk, d).0.job.finished
  {
    hide WellFormed, DataOf, DiskAfterDone, RetryDelay;
  }

  // ---------------------------------------------------------------- a reachable case

  const STREAM_SPEC := RequestSpec(7, "", false, true, false, Config(3, 1024, 16384, 100, true))
  const BEGUN := Attempt(EMPTY_RESPONSE, Wire("x", "x", 503, false, false, false, false), 0)
  const ANSWERED := Attempt(EMPTY_RESPONSE, Wire("x", "x", 503, true, false, false, false), 1)
  const HEADED := Attempt(EMPTY_RESPONSE, Wire("x", "x", 503, true, true, false, false), 1)
  const RECEIVED :=
    Attempt(EMPTY_RESPONSE.(body := "x", bodyLength := 1), Wire("x", "", 503, true, true, true, false), 1)

  /** The first attempt of a request with a data callback, at some point of its response. */
  function Attempt(r: Response, wire: Wire, lines: nat): Live {
    Live(NewJob(STREAM_SPEC).(attempt := 1, easy := true, attached := true, response := r),
         wire, 16384, [], "", 0, [], lines)
  }

  const STATUS_LINE := HeaderLine("HTTP/1.1 503", 503)
  const BLANK_LINE := HeaderLine("", 503)
  const STARTED := Begin(BeginAnswers(true, true, true, true), "x", 503)
  const ONE_BYTE := Write(1, WriteAnswers(0, true, false))
  const ENDED := Done(DoneAnswers(CurlOk, 503, 5, 0, true))

  lemma FirstBegins()
    ensures Enabled(Fresh(STREAM_SPEC, 16384), STARTED)
    ensures Step(Fresh(STREAM_SPEC, 16384), map[], STARTED).0 == BEGUN
    ensures Step(Fresh(STREAM_SPEC, 16384), map[], STARTED).1 == map[]
  {
  }

  lemma ThenStatusLine()
    ensures Enabled(BEGUN, STATUS_LINE)
    ensures Step(BEGUN, map[], STATUS_LINE).0 == ANSWERED
    ensures Step(BEGUN, map[], STATUS_LINE).1 == map[]
  {
    assert IsStatusLine("HTTP/1.1 503");
  }

  lemma ThenBlankLine()
    ensures Enabled(ANSWERED, BLANK_LINE)
    ensures Step(ANSWERED, map[], BLANK_LINE).0 == HEADED
    ensures Step(ANSWERED, map[], BLANK_LINE).1 == map[]
  {
    assert !IsStatusLine("") && Trim("") == "";
  }

  lemma ThenOneByte()
    ensures Enabled(HEADED, ONE_BYTE)
    ensures Step(HEADED, map[], ONE_BYTE).0 == RECEIVED
    ensures Step(HEADED, map[], ONE_BYTE).1 == map[]
  {
    assert "x"[..1] == "x" && "x"[1..] == "" && "" + "x" == "x";
  }

  lemma ThenEnds()
    ensures Enabled(RECEIVED, ENDED) && Step(RECEIVED, map[], ENDED).1 == map[]
    ensures Step(RECEIVED, map[], ENDED).0.job.finished
    ensures Step(RECEIVED, map[], ENDED).0.history == [Complete(7, HttpError, 503, [], "x", 1)]
  {
  }

  /** The documentation lists 503 among the retried statuses. Here is a run in which a request with a data
      callback is answered 503 with a one-byte body and ends as HttpError on its first attempt, with three
      retries left and no stream byte taken. */
  lemma StreamedErrorBodyIsNotRetried() returns (lives: seq<Live>, disks: seq<Disk>, steps: seq<Label>)
    ensures LiveRun(lives, disks, steps) && |steps| == 5
    ensures steps[4].Done? && steps[4].done.code == CurlOk && steps[4].done.status == 503
    ensures lives[4].job.attempt == 1 && lives[4].job.spec.config.maxRetries == 3 && lives[4].accepted == ""
    ensures lives[5].job.finished && lives[5].history == [Complete(7, HttpError, 503, [], "x", 1)]
  {
    FirstBegins();
    ThenStatusLine();
    ThenBlankLine();
    ThenOneByte();
    ThenEnds();
    hide Step, Enabled, Attempt, Fresh;
    lives := [Fresh(STREAM_SPEC, 16384), BEGUN, ANSWERED, HEADED, RECEIVED, Step(RECEIVED, map[], ENDED).0];
    disks := [map[], map[], map[], map[], map[], map[]];
    steps := [STARTED, STATUS_LINE, BLANK_LINE, ONE_BYTE, ENDED];
    assert lives[0].job.spec == STREAM_SPEC && lives[0].maxWrite == 16384 by { FreshFields(); }
    assert lives[4].job.attempt == 1 && lives[4].job.spec == STREAM_SPEC
        && lives[4].accepted == "" by { ReceivedFields(); }
    forall i | 0 <= i < 5
      ensures Enabled(lives[i], steps[i]) && (lives[i + 1], disks[i + 1]) == Step(lives[i], disks[i], steps[i])
    {
      if i == 0 {
      } else if i == 1 {
      } else if i == 2 {
      } else if i == 3 {
      } else {
      }
    }
  }

  lemma FreshFields()
    ensures Fresh(STREAM_SPEC, 16384).job.spec == STREAM_SPEC && Fresh(STREAM_SPEC, 16384).maxWrite == 16384
  {
  }

  lemma ReceivedFields()
    ensures RECEIVED.job.attempt == 1 && RECEIVED.job.spec == STREAM_SPEC && RECEIVED.accepted == ""
  {
  }
}
