/** Input checks of the forms: e-mail addresses, dates and times. A check
    that raises `ValueError` is a `Failure`; one that passes returns the
    cleaned value. */
module Validators {
  import opened Wrappers
  import opened Text

  // ---------------------------------------------------------------------
  // E-mail.

  datatype EmailError = EmailRequired | EmailInvalid

  /** One run of `[^@\s]`: no '@' and no whitespace. */
  predicate Plain(t: string) {
    forall k :: 0 <= k < |t| ==> t[k] != '@' && !IsSpace(t[k])
  }

  /** What `^[^@\s]+@[^@\s]+\.[^@\s]+$` matches: a non-empty local part, an
      '@', a non-empty run, a '.', and a non-empty run. */
  predicate EmailRegex(s: string) {
    exists i, j :: 0 < i && i + 1 < j < |s| - 1 && s[i] == '@' && s[j] == '.'
      && Plain(s[..i]) && Plain(s[i + 1..j]) && Plain(s[j + 1..])
  }

  /** The position of the first c in s. */
  function FirstIndex(s: string, c: char): (r: Option<nat>)
    ensures r.None? ==> c !in s
    ensures r.Some? ==> r.value < |s| && s[r.value] == c && c !in s[..r.value]
  {
    if s == [] then None
    else if s[0] == c then Some(0)
    else
      match FirstIndex(s[1..], c)
      case None => None
      case Some(i) => assert s[..i + 1] == [s[0]] + s[1..][..i]; Some(i + 1)
  }

  /** The address read piece by piece: no whitespace, exactly one '@', not
      in front, and after it a domain with a '.' that is neither its first
      nor its last character. */
  predicate EmailOk(s: string) {
    NoSpace(s)
    && match FirstIndex(s, '@')
       case None => false
       case Some(i) => 0 < i && '@' !in s[i + 1..] && i + 2 < |s| - 1 && '.' in s[i + 2..|s| - 1]
  }

  /** The piecewise reading accepts exactly what the regular expression
      matches. */
  lemma EmailOkIff(s: string)
    ensures EmailOk(s) <==> EmailRegex(s)
  {
    if EmailOk(s) {
      EmailOkMatches(s);
    }
    if EmailRegex(s) {
      EmailMatchOk(s);
    }
  }

  lemma EmailOkMatches(s: string)
    requires EmailOk(s)
    ensures EmailRegex(s)
  {
    var i := FirstIndex(s, '@').value;
    var t := s[i + 2..|s| - 1];
    var m :| 0 <= m < |t| && t[m] == '.';
    var j := i + 2 + m;
    assert s[j] == '.';
    forall k | 0 <= k < i ensures s[..i][k] != '@' && !IsSpace(s[..i][k]) {
      assert s[..i][k] in s[..i];
    }
    var domain, mid, tail := s[i + 1..], s[i + 1..j], s[j + 1..];
    forall k | 0 <= k < |mid| ensures mid[k] != '@' && !IsSpace(mid[k]) {
      assert mid[k] == domain[k];
      assert domain[k] in domain;
    }
    forall k | 0 <= k < |tail| ensures tail[k] != '@' && !IsSpace(tail[k]) {
      assert tail[k] == domain[k + j - i];
      assert domain[k + j - i] in domain;
    }
  }

  lemma EmailMatchOk(s: string)
    requires EmailRegex(s)
    ensures EmailOk(s)
  {
    var i, j :| 0 < i && i + 1 < j < |s| - 1 && s[i] == '@' && s[j] == '.'
      && Plain(s[..i]) && Plain(s[i + 1..j]) && Plain(s[j + 1..]);
    RegexPartsPlain(s, i, j);
    var f := FirstIndex(s, '@');
    assert s[i] in s;
    assert s[f.value] == '@';
    assert '@' !in s[i + 1..];
    assert s[i + 2..|s| - 1][j - i - 2] == '.';
  }

  /** Every character of a match is neither whitespace nor an '@', except
      the one '@' between local part and domain. */
  lemma RegexPartsPlain(s: string, i: nat, j: nat)
    requires 0 < i && i + 1 < j < |s| - 1 && s[i] == '@' && s[j] == '.'
    requires Plain(s[..i]) && Plain(s[i + 1..j]) && Plain(s[j + 1..])
    ensures NoSpace(s)
    ensures forall k :: 0 <= k < |s| && s[k] == '@' ==> k == i
  {
    forall k | 0 <= k < |s|
      ensures s[k] != '@' || k == i
      ensures !IsSpace(s[k])
    {
      if k < i {
        assert s[..i][k] == s[k];
      } else if i < k < j {
        assert s[i + 1..j][k - i - 1] == s[k];
      } else if j < k {
        assert s[j + 1..][k - j - 1] == s[k];
      }
    }
  }

  /** `validate_email`: the input (None read as "") stripped and
      lower-cased; blank is refused as missing, a string the pattern does
      not match as invalid. */
  function ValidateEmail(email: Option<string>): (r: Result<string, EmailError>)
    ensures r.Success? ==> r.value != "" && NoSpace(r.value)
    ensures r.Failure? && r.error == EmailRequired ==> Trim(email.GetOr("")) == ""
  {
    var e := Lower(Trim(email.GetOr("")));
    if e == "" then Failure(EmailRequired)
    else if !EmailOk(e) then Failure(EmailInvalid)
    else Success(e)
  }

  /** An address is refused as missing exactly when it is blank; it is
      accepted exactly when its stripped, lower-cased form matches the
      pattern, and is then returned in that form. */
  lemma ValidateEmailSpec(email: Option<string>)
    ensures ValidateEmail(email) == Failure(EmailRequired) <==> Trim(email.GetOr("")) == ""
    ensures ValidateEmail(email).Success? <==> EmailRegex(Lower(Trim(email.GetOr(""))))
    ensures ValidateEmail(email).Success? ==> ValidateEmail(email).value == Lower(Trim(email.GetOr("")))
  {
    var e := Lower(Trim(email.GetOr("")));
    EmailOkIff(e);
    if EmailRegex(e) {
      assert e != "";
    }
  }

  /** A validated address passes again unchanged. */
  lemma ValidateEmailIdempotent(email: Option<string>)
    requires ValidateEmail(email).Success?
    ensures ValidateEmail(Some(ValidateEmail(email).value)) == ValidateEmail(email)
  {
    var t := Trim(email.GetOr(""));
    TrimLowerCommute(t);
    TrimIdempotent(email.GetOr(""));
    LowerIdempotent(t);
  }

  // ---------------------------------------------------------------------
  // Dates and times.

  /** `validate_date` checks "%Y-%m-%d", `validate_time` "%H:%M". */
  datatype StampKind = Date | Time

  function StampFormat(kind: StampKind): string {
    match kind
    case Date => "%Y-%m-%d"
    case Time => "%H:%M"
  }

  datatype StampError = StampRequired(kind: StampKind) | StampBadFormat(kind: StampKind)

  /** `validate_date` / `validate_time`. `strptime(value, format)` says
      whether `datetime.strptime` accepts the value; the calendar rules it
      applies are not part of this model. */
  function ValidateStamp(value: Option<string>, kind: StampKind, strptime: (string, string) -> bool)
    : (r: Result<string, StampError>)
    ensures r.Success? ==> r.value != "" && strptime(r.value, StampFormat(kind)) && Trim(r.value) == r.value
    ensures r.Failure? ==> r.error.kind == kind
  {
    var s := Trim(value.GetOr(""));
    TrimIdempotent(value.GetOr(""));
    if s == "" then Failure(StampRequired(kind))
    else if !strptime(s, StampFormat(kind)) then Failure(StampBadFormat(kind))
    else Success(s)
  }

  /** Blank input is refused as missing; otherwise the stripped value is
      returned exactly when the parser accepts it. */
  lemma ValidateStampSpec(value: Option<string>, kind: StampKind, strptime: (string, string) -> bool)
    ensures ValidateStamp(value, kind, strptime) == Failure(StampRequired(kind)) <==> Trim(value.GetOr("")) == ""
    ensures ValidateStamp(value, kind, strptime).Success? <==>
      Trim(value.GetOr("")) != "" && strptime(Trim(value.GetOr("")), StampFormat(kind))
    ensures ValidateStamp(value, kind, strptime).Success? ==>
      ValidateStamp(value, kind, strptime).value == Trim(value.GetOr(""))
  {
  }

  /** A validated date or time passes again unchanged. */
  lemma ValidateStampIdempotent(value: Option<string>, kind: StampKind, strptime: (string, string) -> bool)
    requires ValidateStamp(value, kind, strptime).Success?
    ensures ValidateStamp(Some(ValidateStamp(value, kind, strptime).value), kind, strptime)
      == ValidateStamp(value, kind, strptime)
  {
    TrimIdempotent(value.GetOr(""));
  }
}
