/**
 * Small helpers of the Django back end: reading a flag from a query value,
 * an HTTP adapter that gives every request a default timeout, and a GET
 * that turns a raised exception into an error detail.
 */
module CommonUtils {
  import opened Wrappers
  import opened Text
  import opened JsonValues

  // ------------------------------------------------------------ is_true

  /** The Python values a flag is read from. */
  datatype PyValue = PyStr(s: string) | PyBool(b: bool) | PyInt(i: int) | PyNone

  /** `str(value)` */
  function Str(v: PyValue): string {
    match v
    case PyStr(s) => s
    case PyBool(b) => if b then "True" else "False"
    case PyInt(i) => IntToString(i)
    case PyNone => "None"
  }

  /** `is_true`: the lower-cased text is one of "1", "true" and "yes". */
  predicate IsTrue(v: PyValue) {
    Lower(Str(v)) in ["1", "true", "yes"]
  }

  /**
   * A string is true exactly when it is "1", or "true" or "yes" in any mix
   * of cases; nothing is trimmed, so a padded or abbreviated word is false.
   */
  lemma IsTrueStrings(s: string)
    ensures IsTrue(PyStr(s)) <==> s == "1" || (|s| == 4 && Lower(s) == "true") || (|s| == 3 && Lower(s) == "yes")
    ensures IsTrue(PyStr(s)) ==> |s| == 1 || |s| == 3 || |s| == 4
    ensures s != [] && (s[0] == ' ' || s[|s| - 1] == ' ') ==> !IsTrue(PyStr(s))
  {
    if Lower(s) == "1" {
      assert s[0] == '1' by {
        assert LowerChar(s[0]) == '1';
      }
      assert s == "1";
    }
    if s != [] && (s[0] == ' ' || s[|s| - 1] == ' ') {
      assert Lower(s)[0] == ' ' || Lower(s)[|s| - 1] == ' ';
    }
  }

  /** Every case spelling of "true" and "yes" is accepted, and the usual near misses are not. */
  lemma IsTrueExamples()
    ensures IsTrue(PyStr("TRUE")) && IsTrue(PyStr("Yes")) && IsTrue(PyStr("1"))
    ensures !IsTrue(PyStr(" true")) && !IsTrue(PyStr("y")) && !IsTrue(PyStr("on")) && !IsTrue(PyStr(""))
  {
    assert Lower("TRUE") == "true";
    assert Lower("Yes") == "yes";
    assert Lower("1") == "1";
    IsTrueStrings(" true");
    IsTrueStrings("y");
    IsTrueStrings("on");
  }

  /** A boolean is its own flag, an integer is true only when it is 1, and None is false. */
  lemma IsTrueOtherValues(b: bool, i: int)
    ensures IsTrue(PyBool(b)) <==> b
    ensures IsTrue(PyInt(i)) <==> i == 1
    ensures !IsTrue(PyNone)
  {
    assert Lower("True") == "true";
    assert Lower("False") == "false";
    assert Lower("None") == "none";
    var s := IntToString(i);
    if IsTrue(PyInt(i)) {
      assert s[0] == '-' || IsDigit(s[0]) by {
        if i >= 0 {
          assert s == NatToString(i);
        }
      }
      assert Lower(s)[0] == s[0];
      assert Lower(s) == "1";
      assert s == "1";
      IntRoundTrip(i);
      assert ParseInt("1") == Ok(1) by {
        assert AllDigits("1");
        assert DigitsValue("1") == 1;
      }
    }
    if i == 1 {
      assert NatToString(1) == [DigitChar(1)] == "1";
      assert Lower("1") == "1";
    }
  }

  // ------------------------------------------------------------ TimeoutHTTPAdapter

  /** A keyword argument of `send`: a timeout, a flag, a path, or None. */
  datatype Arg = ArgNone | ArgSeconds(seconds: real) | ArgPair(connect: real, read: real) | ArgBool(b: bool) | ArgText(s: string)

  type Kwargs = map<string, Arg>

  const TIMEOUT: string := "timeout"

  /** `kwargs.pop("timeout", DEFAULT_TIMEOUT)`: the timeout given, or the setting. */
  function PoppedTimeout(kwargs: Kwargs, defaultTimeout: Arg): (r: (Arg, Kwargs))
    ensures TIMEOUT !in r.1 && forall k :: k != TIMEOUT ==> (k in r.1 <==> k in kwargs)
  {
    (if TIMEOUT in kwargs then kwargs[TIMEOUT] else defaultTimeout, kwargs - {TIMEOUT})
  }

  /** `send` as written: the stored timeout goes in only when the caller's keywords have no "timeout" at all. */
  function FilledAsWritten(kwargs: Kwargs, timeout: Arg): Kwargs {
    if TIMEOUT !in kwargs then kwargs[TIMEOUT := timeout] else kwargs
  }

  /**
   * Keywords `requests.Session` hands to an adapter's `send` for a plain
   * `get(url)` with default settings. The session pops "allow_redirects"
   * before calling the adapter, so it is not among them; "proxies", a dict,
   * is left out because no modelled code reads it.
   */
  const SESSION_GET_KWARGS: Kwargs := map[TIMEOUT := ArgNone, "stream" := ArgBool(false), "verify" := ArgBool(true), "cert" := ArgNone]

  /**
   * As written, the adapter's timeout never reaches a request made through a
   * session: the session always names "timeout", with None when its caller
   * gave none, so `send` keeps None and the request may wait forever.
   */
  lemma SessionTimeoutIgnored(timeout: Arg)
    ensures FilledAsWritten(SESSION_GET_KWARGS, timeout)[TIMEOUT] == ArgNone
  {
  }

  /** `send`, corrected: the stored timeout goes in when the caller gave none, whether absent or None. */
  function Filled(kwargs: Kwargs, timeout: Arg): Kwargs {
    if TIMEOUT !in kwargs || kwargs[TIMEOUT] == ArgNone then kwargs[TIMEOUT := timeout] else kwargs
  }

  /**
   * A timeout the caller gave is kept, a missing or None one becomes the
   * stored timeout, and no other keyword changes; filling twice is filling
   * once.
   */
  lemma FilledTimeout(kwargs: Kwargs, timeout: Arg, other: Arg)
    ensures var r := Filled(kwargs, timeout);
      TIMEOUT in r &&
      r[TIMEOUT] == (if TIMEOUT in kwargs && kwargs[TIMEOUT] != ArgNone then kwargs[TIMEOUT] else timeout) &&
      forall k :: k != TIMEOUT ==> (k in r <==> k in kwargs) && (k in kwargs ==> r[k] == kwargs[k])
    ensures timeout != ArgNone ==> Filled(Filled(kwargs, timeout), other) == Filled(kwargs, timeout)
  {
  }

  /** Through a session, the corrected adapter's timeout is the one that applies. */
  lemma SessionTimeoutApplied(timeout: Arg)
    ensures Filled(SESSION_GET_KWARGS, timeout)[TIMEOUT] == timeout
  {
  }

  class TimeoutHTTPAdapter {
    /** `self.timeout` */
    var timeout: Arg
    /** What the base adapter's constructor receives: the keywords without "timeout". */
    var baseKwargs: Kwargs

    /** `__init__`: the timeout keyword is taken out of the keywords, defaulting to the setting. */
    constructor (kwargs: Kwargs, defaultTimeout: Arg)
      ensures timeout == (if TIMEOUT in kwargs then kwargs[TIMEOUT] else defaultTimeout)
      ensures baseKwargs == kwargs - {TIMEOUT}
    {
      var popped := PoppedTimeout(kwargs, defaultTimeout);
      timeout := popped.0;
      baseKwargs := popped.1;
    }

    /** `send`: fills in the stored timeout and hands the request on with these keywords. */
    method Send(kwargs: Kwargs) returns (forwarded: Kwargs)
      ensures forwarded == Filled(kwargs, timeout)
    {
      forwarded := kwargs;
      if TIMEOUT !in forwarded || forwarded[TIMEOUT] == ArgNone {
        forwarded := forwarded[TIMEOUT := timeout];
      }
    }
  }

  // ------------------------------------------------------------ perform_request

  /** What `http.get(url)` did: answered with a response, or raised an exception with this text. */
  datatype Outcome<R> = Answered(response: R) | Raised(message: string)

  /** `perform_request`'s result: the response, or a dict with an error detail. */
  datatype RequestResult<R> = Response(response: R) | ErrorDetail(detail: Json)

  const ERROR_PREFIX: string := "Error trying to perform request. Got "

  /**
   * `perform_request`: a GET through an adapter made without keywords, so
   * with the default timeout, whose `send` is the one as written.
   * `get(url, kwargs)` is what the transport does with the keywords the
   * adapter hands on: the session's own, since "timeout" is already among
   * them.
   */
  function PerformRequest<R>(url: string, defaultTimeout: Arg, get: (string, Kwargs) -> Outcome<R>): (r: RequestResult<R>)
    ensures get(url, SESSION_GET_KWARGS).Answered? ==> r == Response(get(url, SESSION_GET_KWARGS).response)
    ensures get(url, SESSION_GET_KWARGS).Raised? ==>
      r == ErrorDetail(JObj([("detail", JStr(ERROR_PREFIX + get(url, SESSION_GET_KWARGS).message))]))
  {
    var adapterTimeout := PoppedTimeout(map[], defaultTimeout).0;
    match get(url, FilledAsWritten(SESSION_GET_KWARGS, adapterTimeout))
    case Answered(response) => Response(response)
    case Raised(message) => ErrorDetail(JObj([("detail", JStr("Error trying to perform request. Got " + message))]))
  }

  /** The outcome of `perform_request` does not depend on the default timeout: it never reaches the request. */
  lemma PerformRequestIgnoresTimeout<R>(url: string, t1: Arg, t2: Arg, get: (string, Kwargs) -> Outcome<R>)
    ensures PerformRequest(url, t1, get) == PerformRequest(url, t2, get)
  {
    SessionTimeoutIgnored(t1);
    SessionTimeoutIgnored(t2);
  }

  /** A failed request's detail begins "Error trying to perform request" and ends with the exception's text. */
  lemma ErrorDetailShape<R>(url: string, defaultTimeout: Arg, get: (string, Kwargs) -> Outcome<R>)
    requires PerformRequest(url, defaultTimeout, get).ErrorDetail?
    ensures var d := PerformRequest(url, defaultTimeout, get).detail;
      d.JObj? && |d.fields| == 1 && d.fields[0].0 == "detail" && d.fields[0].1.JStr? &&
      StartsWith(d.fields[0].1.s, "Error trying to perform request") &&
      d.fields[0].1.s == ERROR_PREFIX + get(url, SESSION_GET_KWARGS).message
  {
    var m := get(url, SESSION_GET_KWARGS).message;
    assert (ERROR_PREFIX + m)[..|"Error trying to perform request"|] == "Error trying to perform request";
  }
}
