/**
 * The waitlist form of the landing page: the e-mail validator and the
 * `submit` handler, which walk the form's four pieces of state (`email`,
 * `loading`, `status`, `err`) through a fixed sequence of checks.
 */
module Waitlist {
  import opened Optional
  import opened Text

  // ---------------------------------------------------------------------------
  // validateEmail
  // ---------------------------------------------------------------------------

  /** The regular-expression class `[^\s@]`: neither white space nor `@`. */
  predicate Plain(c: char) {
    !IsSpace(c) && c != '@'
  }

  ghost predicate AllPlain(s: string) {
    forall i :: 0 <= i < |s| ==> Plain(s[i])
  }

  /**
   * `e` splits as `local @ host . tail`, with `@` at index `at` and the
   * chosen `.` at index `dot`, each of the three parts a non-empty run of
   * `[^\s@]`.
   */
  ghost predicate SplitsAsEmail(e: string, at: int, dot: int) {
    && 0 < at && at + 1 < dot && dot + 1 < |e|
    && e[at] == '@' && e[dot] == '.'
    && AllPlain(e[..at]) && AllPlain(e[at + 1..dot]) && AllPlain(e[dot + 1..])
  }

  /** The language of `/^[^\s@]+@[^\s@]+\.[^\s@]+$/`: some split of `e` fits the three runs. */
  ghost predicate MatchesEmailPattern(e: string) {
    exists at, dot :: SplitsAsEmail(e, at, dot)
  }

  /** How many times `c` occurs in `s`. */
  function Occurrences(s: string, c: char): (n: nat)
    ensures n <= |s|
    ensures n == 0 <==> forall i :: 0 <= i < |s| ==> s[i] != c
  {
    if s == [] then 0
    else (if s[0] == c then 1 else 0) + Occurrences(s[1..], c)
  }

  /** The index of the first `c` in `s`, or `|s|` when there is none. */
  function IndexOf(s: string, c: char): (i: nat)
    ensures i <= |s|
    ensures i < |s| ==> s[i] == c
    ensures forall j :: 0 <= j < i ==> s[j] != c
  {
    if s == [] then 0
    else if s[0] == c then 0
    else 1 + IndexOf(s[1..], c)
  }

  /** `d` has a `.` that is neither its first nor its last character. */
  predicate HasInnerDot(d: string) {
    exists k :: 0 < k < |d| - 1 && d[k] == '.'
  }

  /**
   * `validateEmail(e)` at WaitlistHeroSection.tsx line 7, stated as it is
   * usually explained: no white space, exactly one `@`, something before it,
   * and after it a domain with an interior `.`.
   */
  predicate ValidateEmail(e: string) {
    && (forall i :: 0 <= i < |e| ==> !IsSpace(e[i]))
    && Occurrences(e, '@') == 1
    && var at := IndexOf(e, '@');
       0 < at < |e| && HasInnerDot(e[at + 1..])
  }

  /** Counting over a split string. */
  lemma {:induction false} OccurrencesAppend(a: string, b: string, c: char)
    ensures Occurrences(a + b, c) == Occurrences(a, c) + Occurrences(b, c)
  {
    if a == [] {
      assert a + b == b;
    } else {
      assert (a + b)[1..] == a[1..] + b;
      OccurrencesAppend(a[1..], b, c);
    }
  }

  /** Splitting `e` around index `at` counts the character there once. */
  lemma OccurrencesAround(e: string, at: int, c: char)
    requires 0 <= at < |e|
    ensures Occurrences(e, c) == Occurrences(e[..at], c) + (if e[at] == c then 1 else 0) + Occurrences(e[at + 1..], c)
  {
    assert e == e[..at] + ([e[at]] + e[at + 1..]);
    OccurrencesAppend(e[..at], [e[at]] + e[at + 1..], c);
    OccurrencesAppend([e[at]], e[at + 1..], c);
    assert ([e[at]] + e[at + 1..])[1..] == e[at + 1..];
  }

  /** Index-wise plainness of a slice gives `AllPlain` of the slice. */
  lemma PlainSlice(e: string, lo: int, hi: int)
    requires 0 <= lo <= hi <= |e|
    requires forall i :: lo <= i < hi ==> Plain(e[i])
    ensures AllPlain(e[lo..hi])
  {
    forall j | 0 <= j < hi - lo ensures Plain(e[lo..hi][j]) {
      assert e[lo..hi][j] == e[lo + j];
    }
  }

  /** A slice without `c` at any index counts no `c`. */
  lemma AbsentInSlice(e: string, lo: int, hi: int, c: char)
    requires 0 <= lo <= hi <= |e|
    requires forall i :: lo <= i < hi ==> e[i] != c
    ensures Occurrences(e[lo..hi], c) == 0
  {
    forall j | 0 <= j < hi - lo ensures e[lo..hi][j] != c {
      assert e[lo..hi][j] == e[lo + j];
    }
  }

  /** A string the characterization accepts splits as the pattern demands. */
  lemma ValidateEmailSplits(e: string)
    requires ValidateEmail(e)
    ensures MatchesEmailPattern(e)
  {
    var at := IndexOf(e, '@');
    var d := e[at + 1..];
    var k :| 0 < k < |d| - 1 && d[k] == '.';
    var dot := at + 1 + k;
    OccurrencesAround(e, at, '@');
    assert e[at + 1..] == e[at + 1..|e|];
    forall i | at < i < |e| ensures e[i] != '@' {
      assert e[i] == e[at + 1..][i - at - 1];
    }
    assert e[dot] == d[k];
    PlainSlice(e, 0, at);
    PlainSlice(e, at + 1, dot);
    PlainSlice(e, dot + 1, |e|);
    assert e[..at] == e[0..at];
    assert e[dot + 1..] == e[dot + 1..|e|];
    assert SplitsAsEmail(e, at, dot);
  }

  /** A string of the pattern passes the characterization. */
  lemma PatternValidates(e: string, at: int, dot: int)
    requires SplitsAsEmail(e, at, dot)
    ensures ValidateEmail(e)
  {
    forall i | 0 <= i < at ensures Plain(e[i]) { assert e[i] == e[..at][i]; }
    forall i | at < i < dot ensures Plain(e[i]) { assert e[i] == e[at + 1..dot][i - at - 1]; }
    forall i | dot < i < |e| ensures Plain(e[i]) { assert e[i] == e[dot + 1..][i - dot - 1]; }
    assert forall i :: 0 <= i < |e| ==> !IsSpace(e[i]);
    assert IndexOf(e, '@') == at;
    OccurrencesAround(e, at, '@');
    AbsentInSlice(e, 0, at, '@');
    AbsentInSlice(e, at + 1, |e|, '@');
    assert e[..at] == e[0..at];
    assert e[at + 1..] == e[at + 1..|e|];
    var d := e[at + 1..];
    assert d[dot - at - 1] == '.';
    assert HasInnerDot(d);
  }

  /**
   * The characterization agrees with the regular expression, in both
   * directions: `validateEmail` accepts exactly the strings of the pattern.
   */
  lemma ValidateEmailMatchesPattern(e: string)
    ensures ValidateEmail(e) <==> MatchesEmailPattern(e)
  {
    if ValidateEmail(e) {
      ValidateEmailSplits(e);
    }
    if MatchesEmailPattern(e) {
      var at, dot :| SplitsAsEmail(e, at, dot);
      PatternValidates(e, at, dot);
    }
  }

  /** A valid address is never blank, so the "required" check cannot reject it. */
  lemma ValidEmailNotBlank(e: string)
    requires ValidateEmail(e)
    ensures Trim(e) != []
  {
    TrimKeeps(e, 0);
  }

  /** Lower-case letters and dots, the characters of the sample addresses. */
  predicate LetterOrDot(c: char) {
    ('a' <= c <= 'z') || c == '.'
  }

  /** An `@` at `at` and a `.` at `dot` among lower-case letters and dots split the string as the pattern demands. */
  lemma SplitsFromLetters(e: string, at: int, dot: int)
    requires 0 < at && at + 1 < dot && dot + 1 < |e|
    requires e[at] == '@' && e[dot] == '.'
    requires forall i :: 0 <= i < |e| && i != at ==> LetterOrDot(e[i])
    ensures SplitsAsEmail(e, at, dot)
  {
    assert forall i :: 0 <= i < |e| && i != at ==> Plain(e[i]);
    PlainSlice(e, 0, at);
    PlainSlice(e, at + 1, dot);
    PlainSlice(e, dot + 1, |e|);
    assert e[..at] == e[0..at];
    assert e[dot + 1..] == e[dot + 1..|e|];
  }

  /** An address the pattern accepts, with more than one dot in the domain. */
  lemma AcceptedExample()
    ensures ValidateEmail("dev@pay.mesh.io")
  {
    SplitsFromLetters("dev@pay.mesh.io", 3, 7);
    PatternValidates("dev@pay.mesh.io", 3, 7);
  }

  /** An address without any dot is refused. */
  lemma DotlessRefused(e: string)
    requires forall i :: 0 <= i < |e| ==> e[i] != '.'
    ensures !ValidateEmail(e)
  {
    var at := IndexOf(e, '@');
    if at < |e| {
      var d := e[at + 1..];
      forall k | 0 <= k < |d| ensures d[k] != '.' {
        assert d[k] == e[at + 1 + k];
      }
    }
  }

  /** Without a dot after the `@` the address is refused. */
  lemma RefusedExample()
    ensures !ValidateEmail("dev@paymesh")
  {
    DotlessRefused("dev@paymesh");
  }

  // ---------------------------------------------------------------------------
  // submit and the field's onChange
  // ---------------------------------------------------------------------------

  datatype Status = Idle | Success | Error

  const RequiredMessage := "Email address is required"
  const InvalidMessage := "Please enter a valid email address"
  const FailureMessage := "Unable to submit. Please try again."

  /**
   * The optional `onEmailSubmit` prop, by what its promise does when
   * awaited: absent, resolving, or rejecting.
   */
  datatype Handler = NoHandler | Resolves | Rejects

  /** The form's state as `useState` holds it. */
  class WaitlistForm {
    var email: string
    var loading: bool
    var status: Status
    var err: string

    /** The four initial `useState` values. */
    constructor ()
      ensures email == "" && !loading && status == Idle && err == ""
    {
      email, loading, status, err := "", false, Idle, "";
    }

    /**
     * `submit`: the "required" check, then the format check, then the
     * handler. `sent` is the address the handler was called with, if it was
     * called at all.
     */
    method Submit(handler: Handler) returns (sent: Option<string>)
      modifies this
      ensures Trim(old(email)) == [] ==>
        && status == Error && err == RequiredMessage && sent == None
        && email == old(email) && loading == old(loading)
      ensures Trim(old(email)) != [] && !ValidateEmail(old(email)) ==>
        && status == Error && err == InvalidMessage && sent == None
        && email == old(email) && loading == old(loading)
      ensures ValidateEmail(old(email)) ==>
        && !loading
        && sent == (if handler == NoHandler then None else Some(old(email)))
        && (if handler == Rejects
            then status == Error && err == FailureMessage && email == old(email)
            else status == Success && err == old(err) && email == "")
    {
      if ValidateEmail(email) {
        ValidEmailNotBlank(email);
      }
      if Trim(email) == [] {
        status := Error;
        err := RequiredMessage;
        return None;
      }
      if !ValidateEmail(email) {
        status := Error;
        err := InvalidMessage;
        return None;
      }
      loading := true;
      status := Idle;
      sent := if handler == NoHandler then None else Some(email);
      if handler == Rejects {
        status := Error;
        err := FailureMessage;
      } else {
        email := "";
        status := Success;
      }
      loading := false;
    }

    /** The input's `onChange`: takes the new text and clears any message. */
    method Edit(value: string)
      modifies this
      ensures email == value && status == Idle && err == "" && loading == old(loading)
    {
      email := value;
      status := Idle;
      err := "";
    }
  }

  /** Submitting a blank field: the "required" error, and the handler is not called. */
  method ReplaySubmitBlank() returns (status: Status, err: string, sent: Option<string>)
    ensures status == Error && err == RequiredMessage && sent == None
  {
    var form := new WaitlistForm();
    form.Edit("   ");
    sent := form.Submit(Resolves);
    status, err := form.status, form.err;
  }

  /** Submitting an address without a domain dot: the format error, and the handler is not called. */
  method ReplaySubmitMalformed() returns (status: Status, err: string, sent: Option<string>)
    ensures status == Error && err == InvalidMessage && sent == None
  {
    RefusedExample();
    var form := new WaitlistForm();
    var malformed := "dev@paymesh";
    TrimKeeps(malformed, 0);
    form.Edit(malformed);
    sent := form.Submit(Resolves);
    status, err := form.status, form.err;
  }

  /**
   * Submitting a good address whose handler rejects keeps the address and
   * shows the failure; submitting it again once the handler succeeds
   * clears the field.
   */
  method ReplaySubmitRetry()
    returns (rejected: Status, rejectedErr: string, keptEmail: string,
             accepted: Status, sent: Option<string>, clearedEmail: string, loading: bool)
    ensures rejected == Error && rejectedErr == FailureMessage && keptEmail == "dev@pay.mesh.io"
    ensures accepted == Success && sent == Some("dev@pay.mesh.io") && clearedEmail == "" && !loading
  {
    AcceptedExample();
    var form := new WaitlistForm();
    form.Edit("dev@pay.mesh.io");
    var _ := form.Submit(Rejects);
    rejected, rejectedErr, keptEmail := form.status, form.err, form.email;
    sent := form.Submit(Resolves);
    accepted, clearedEmail, loading := form.status, form.email, form.loading;
  }
}
