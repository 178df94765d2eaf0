/**
 * The contact form's validation and the status texts it shows: blank-field
 * detection through JavaScript's `trim`, the e-mail shape check
 * `^[^\s@]+@[^\s@]+\.[^\s@]+$`, and the messages for each outcome.
 */
module Contact {
  import opened Wrappers
  import opened Sequences

  // ---------------------------------------------------------------------
  // JavaScript white space
  // ---------------------------------------------------------------------

  /**
   * The characters that `String.prototype.trim` strips and that `\s`
   * matches in a regular expression: ECMAScript's WhiteSpace (tab, vertical
   * tab, form feed, space, no-break space, byte order mark and the Unicode
   * space separators) and LineTerminator (line feed, carriage return, line
   * and paragraph separators).
   */
  predicate IsSpace(c: char)
  {
    || c == '\t' || c == '\n' || c == '\U{000B}' || c == '\U{000C}' || c == '\r'
    || c == ' ' || c == '\U{00A0}' || c == '\U{1680}'
    || ('\U{2000}' <= c <= '\U{200A}')
    || c == '\U{2028}' || c == '\U{2029}' || c == '\U{202F}' || c == '\U{205F}'
    || c == '\U{3000}' || c == '\U{FEFF}'
  }

  /** Every character of `s` is white space (the empty string included). */
  ghost predicate IsBlank(s: string)
  {
    forall k :: 0 <= k < |s| ==> IsSpace(s[k])
  }

  /** `s` without its leading white space. */
  function TrimStart(s: string): (r: string)
    ensures |r| <= |s|
    ensures IsBlank(s[..|s| - |r|])
    ensures r == [] || !IsSpace(r[0])
  {
    if s != [] && IsSpace(s[0]) then TrimStart(s[1..]) else s
  }

  /** `s` without its trailing white space. */
  function TrimEnd(s: string): (r: string)
    ensures |r| <= |s|
    ensures IsBlank(s[|r|..])
    ensures r == [] || !IsSpace(r[|r| - 1])
  {
    if s != [] && IsSpace(s[|s| - 1]) then TrimEnd(s[..|s| - 1]) else s
  }

  /** What `TrimStart` keeps is the end of `s`: only leading characters are removed. */
  lemma {:induction false} TrimStartIsSuffix(s: string)
    ensures TrimStart(s) == s[|s| - |TrimStart(s)|..]
  {
    if s != [] && IsSpace(s[0]) {
      TrimStartIsSuffix(s[1..]);
    }
  }

  /** What `TrimEnd` keeps is the start of `s`: only trailing characters are removed. */
  lemma {:induction false} TrimEndIsPrefix(s: string)
    ensures TrimEnd(s) == s[..|TrimEnd(s)|]
  {
    if s != [] && IsSpace(s[|s| - 1]) {
      TrimEndIsPrefix(s[..|s| - 1]);
    }
  }

  /** `String.prototype.trim`. */
  function Trim(s: string): (r: string)
  {
    TrimEnd(TrimStart(s))
  }

  /** A field is rejected as empty (`!field.trim()`) exactly when it is all white space. */
  lemma TrimEmptyIffBlank(s: string)
    ensures Trim(s) == [] <==> IsBlank(s)
  {
    var t := TrimStart(s);
    TrimStartIsSuffix(s);
    assert s == s[..|s| - |t|] + t;
  }

  // ---------------------------------------------------------------------
  // E-mail shape
  // ---------------------------------------------------------------------

  /** `d` has a '.' that is neither its first nor its last character. */
  predicate HasInnerDot(d: string)
  {
    exists k :: 0 < k < |d| - 1 && d[k] == '.'
  }

  /**
   * The e-mail check, stated as conditions on the text: no white space,
   * exactly one '@', something before it, and after it a domain with a '.'
   * that is neither its first nor its last character.
   */
  predicate ValidEmail(email: string)
  {
    && (forall k :: 0 <= k < |email| ==> !IsSpace(email[k]))
    && multiset(email)['@'] == 1
    && '@' in email
    && var at := FirstIndex(email, '@');
       at > 0 && HasInnerDot(email[at + 1..])
  }

  /** One or more characters of the class `[^\s@]` are exactly `t` (given non-empty). */
  ghost predicate Plain(t: string)
  {
    forall k :: 0 <= k < |t| ==> t[k] != '@' && !IsSpace(t[k])
  }

  /**
   * `^[^\s@]+@[^\s@]+\.[^\s@]+$` matches `e`: `e` splits at an '@' (position
   * `i`) and a later '.' (position `j`) into three non-empty runs of
   * characters that are neither white space nor '@'.
   */
  ghost predicate MatchesEmailPattern(e: string)
  {
    exists i, j :: 0 < i && i + 1 < j && j + 1 < |e| && e[i] == '@' && e[j] == '.' &&
      Plain(e[..i]) && Plain(e[i + 1..j]) && Plain(e[j + 1..])
  }

  /** A text with '@' at two different positions holds at least two of them. */
  lemma TwoAts(e: string, a: nat, b: nat)
    requires a < b < |e| && e[a] == '@' && e[b] == '@'
    ensures multiset(e)['@'] >= 2
  {
    assert e == e[..b] + e[b..];
    assert e[..b][a] == '@';
    assert e[b..][0] == '@';
  }

  /** A text with no '@' outside position `i` holds exactly one. */
  lemma {:induction false} OneAt(e: string, i: nat)
    requires i < |e| && e[i] == '@'
    requires forall k :: 0 <= k < |e| && k != i ==> e[k] != '@'
    ensures multiset(e)['@'] == 1
  {
    assert e == e[..i] + [e[i]] + e[i + 1..];
    assert '@' !in e[..i] by {
      forall k | 0 <= k < i ensures e[..i][k] != '@' { assert e[..i][k] == e[k]; }
    }
    var tail := e[i + 1..];
    assert '@' !in tail by {
      forall k | 0 <= k < |tail| ensures tail[k] != '@' { assert tail[k] == e[i + 1 + k]; }
    }
  }

  /** A stretch of `e` with neither white space nor '@' is a run of `[^\s@]`. */
  lemma PlainSlice(e: string, lo: nat, hi: nat)
    requires lo <= hi <= |e|
    requires forall m :: lo <= m < hi ==> e[m] != '@' && !IsSpace(e[m])
    ensures Plain(e[lo..hi])
  {
  }

  /** Every character of a run of `[^\s@]` inside `e` is neither white space nor '@'. */
  lemma PlainAt(e: string, lo: nat, hi: nat, m: nat)
    requires lo <= m < hi <= |e| && Plain(e[lo..hi])
    ensures e[m] != '@' && !IsSpace(e[m])
  {
  }

  /** An address that passes the e-mail check matches the pattern. */
  lemma ValidEmailMatchesPattern(e: string)
    requires ValidEmail(e)
    ensures MatchesEmailPattern(e)
  {
    var i := FirstIndex(e, '@');
    var d := e[i + 1..];
    var k :| 0 < k < |d| - 1 && d[k] == '.';
    var j := i + 1 + k;
    assert e[j] == d[k];
    forall m | 0 <= m < |e| && m != i
      ensures e[m] != '@'
    {
      if e[m] == '@' {
        TwoAts(e, i, m);
      }
    }
    PlainSlice(e, 0, i);
    PlainSlice(e, i + 1, j);
    PlainSlice(e, j + 1, |e|);
    assert e[j + 1..|e|] == e[j + 1..];
    assert e[0..i] == e[..i];
  }

  /** In a text split as the pattern splits it, only position `i` holds '@' and nothing is white space. */
  lemma PatternCharacters(e: string, i: nat, j: nat)
    requires 0 < i && i + 1 < j && j + 1 < |e| && e[i] == '@' && e[j] == '.'
    requires Plain(e[..i]) && Plain(e[i + 1..j]) && Plain(e[j + 1..])
    ensures forall m :: 0 <= m < |e| ==> !IsSpace(e[m]) && (m != i ==> e[m] != '@')
  {
  }

  /** A text that matches the pattern passes the e-mail check. */
  lemma PatternMatchIsValidEmail(e: string)
    requires MatchesEmailPattern(e)
    ensures ValidEmail(e)
  {
    var i, j :| 0 < i && i + 1 < j && j + 1 < |e| && e[i] == '@' && e[j] == '.' &&
      Plain(e[..i]) && Plain(e[i + 1..j]) && Plain(e[j + 1..]);
    PatternCharacters(e, i, j);
    OneAt(e, i);
    assert FirstIndex(e, '@') == i;
    var d := e[i + 1..];
    assert d[j - i - 1] == '.';
  }

  /** The condition-by-condition check and the regular expression accept the same texts. */
  lemma ValidEmailIffPattern(e: string)
    ensures ValidEmail(e) <==> MatchesEmailPattern(e)
  {
    if ValidEmail(e) {
      ValidEmailMatchesPattern(e);
    }
    if MatchesEmailPattern(e) {
      PatternMatchIsValidEmail(e);
    }
  }

  /** An ordinary address passes the e-mail check. */
  lemma AcceptsOrdinaryAddress()
    ensures ValidEmail("ana@site.fr")
  {
    var e := "ana@site.fr";
    assert e[..3] == "ana" && e[4..8] == "site" && e[9..] == "fr";
    assert Plain("ana") && Plain("site") && Plain("fr");
    assert e[3] == '@' && e[8] == '.';
    assert MatchesEmailPattern(e);
    ValidEmailIffPattern(e);
  }

  /** An address whose domain has no '.' fails the e-mail check. */
  lemma RejectsDomainWithoutDot()
    ensures !ValidEmail("ana@site")
  {
    var e := "ana@site";
    assert FirstIndex(e, '@') == 3 && e[4..] == "site";
    assert !HasInnerDot("site");
  }

  /** An address whose domain starts with its only '.' fails the e-mail check. */
  lemma RejectsDomainStartingWithDot()
    ensures !ValidEmail("ana@.fr")
  {
    var e := "ana@.fr";
    assert FirstIndex(e, '@') == 3 && e[4..] == ".fr";
    assert !HasInnerDot(".fr");
  }

  /** A leading space is not trimmed before the e-mail check, so the address fails it. */
  lemma RejectsPaddedAddress()
    ensures !ValidEmail(" ana@site.fr")
  {
    assert IsSpace(" ana@site.fr"[0]);
  }

  // ---------------------------------------------------------------------
  // Validation and status texts
  // ---------------------------------------------------------------------

  /** The three fields of the form, also the payload of a send. */
  datatype FormData = FormData(name: string, email: string, message: string)

  const EmptyForm := FormData("", "", "")

  /** The outcome of the two checks that run before anything is sent. */
  datatype Verdict = MissingField | BadEmail | Accepted

  // The longest text is written in two pieces: the verifier looks inside
  // short string literals only.
  const MissingFieldStatus: string := "Veuillez remplir tous " + "les champs correctement."
  const BadEmailStatus: string := "Veuillez entrer un email valide."
  const SendingStatus: string := "Envoi en cours..."
  const SentStatus: string := "Message envoyé avec succès !"
  const SendErrorPrefix: string := "Erreur lors de l'envoi : "
  const SendErrorFallback: string := "Vérifiez votre connexion ou les clés EmailJS."

  /**
   * The checks in the order the handler runs them: first that no field is
   * empty once trimmed, then, only if that passed, the e-mail shape of the
   * untrimmed e-mail field.
   */
  function Validate(f: FormData): (v: Verdict)
  {
    if Trim(f.name) == [] || Trim(f.email) == [] || Trim(f.message) == [] then MissingField
    else if !ValidEmail(f.email) then BadEmail
    else Accepted
  }

  /**
   * What the verdict means: a field that is all white space makes the form
   * incomplete whatever the e-mail looks like; otherwise the form is accepted
   * exactly when the e-mail matches the pattern.
   */
  lemma ValidateMeaning(f: FormData)
    ensures Validate(f) == MissingField <==> IsBlank(f.name) || IsBlank(f.email) || IsBlank(f.message)
    ensures Validate(f) == BadEmail <==>
      !IsBlank(f.name) && !IsBlank(f.email) && !IsBlank(f.message) && !MatchesEmailPattern(f.email)
    ensures Validate(f) == Accepted <==>
      !IsBlank(f.name) && !IsBlank(f.email) && !IsBlank(f.message) && MatchesEmailPattern(f.email)
  {
    TrimEmptyIffBlank(f.name);
    TrimEmptyIffBlank(f.email);
    TrimEmptyIffBlank(f.message);
    ValidEmailIffPattern(f.email);
  }

  /** The text the service reported, or the fallback when it reported none or an empty one. */
  function ReportedError(errorText: Option<string>): (r: string)
    ensures r != []
    ensures errorText.Some? && errorText.value != [] ==> r == errorText.value
    ensures errorText.None? || errorText.value == [] ==> r == SendErrorFallback
  {
    match errorText
    case Some(t) => if t != [] then t else SendErrorFallback
    case None => SendErrorFallback
  }

  /** The status after a failed send: the fixed prefix, then the reported text or the fallback. */
  function FailureStatus(errorText: Option<string>): (r: string)
    ensures |r| > |SendErrorPrefix| && r[..|SendErrorPrefix|] == SendErrorPrefix
    ensures r[|SendErrorPrefix|..] == ReportedError(errorText)
  {
    SendErrorPrefix + ReportedError(errorText)
  }

  /** Every outcome of a submission shows a different text, so the outcomes can be told apart. */
  lemma StatusesDiffer(errorText: Option<string>)
    ensures |{MissingFieldStatus, BadEmailStatus, SendingStatus, SentStatus}| == 4
    ensures FailureStatus(errorText) !in {MissingFieldStatus, BadEmailStatus, SendingStatus, SentStatus}
  {
    var r := FailureStatus(errorText);
    assert r[0] == 'E' && r[1] == 'r';
    assert MissingFieldStatus[0] == 'V';
    assert BadEmailStatus[0] == 'V';
    assert SendingStatus[1] == 'n';
    assert SentStatus[0] == 'M';
  }
}
