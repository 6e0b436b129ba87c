/**
 * The Studio document type `waitlistSubmission`
 * (sanity/schemas/waitlistSubmission.ts): the status list, its initial value
 * and the list-preview labels.
 */
module WaitlistSubmissionSchema {
  import opened Common

  const Statuses: seq<string> := ["new", "contacted", "converted"]

  const InitialStatus: string := "new"

  lemma StatusValues()
    ensures NoDuplicates(Statuses)
    ensures InitialStatus == Statuses[0]
  {
  }

  /** The characters `String.prototype.trim` removes: white space and line terminators (section 12.2 and 12.3 of ECMA-262). */
  predicate IsTrimmable(c: char) {
    || c == '\t' || c == '\n' || c == '\U{000B}' || c == '\U{000C}' || c == '\r' || c == ' '
    || c == '\U{00A0}' || c == '\U{1680}' || ('\U{2000}' <= c <= '\U{200A}')
    || c == '\U{2028}' || c == '\U{2029}' || c == '\U{202F}' || c == '\U{205F}'
    || c == '\U{3000}' || c == '\U{FEFF}'
  }

  function TrimStart(s: string): (r: string)
    ensures |r| <= |s| && r == s[|s| - |r|..]
    ensures forall i :: 0 <= i < |s| - |r| ==> IsTrimmable(s[i])
    ensures r == [] || !IsTrimmable(r[0])
  {
    if s != [] && IsTrimmable(s[0]) then TrimStart(s[1..]) else s
  }

  function TrimEnd(s: string): (r: string)
    ensures |r| <= |s| && r == s[..|r|]
    ensures forall i :: |r| <= i < |s| ==> IsTrimmable(s[i])
    ensures r == [] || !IsTrimmable(r[|r| - 1])
  {
    if s != [] && IsTrimmable(s[|s| - 1]) then TrimEnd(s[..|s| - 1]) else s
  }

  /** `s.trim()`: `s` without its leading and trailing white space. */
  function Trim(s: string): (r: string)
    ensures r == [] || (!IsTrimmable(r[0]) && !IsTrimmable(r[|r| - 1]))
  {
    var t := TrimStart(s);
    assert TrimEnd(t) != [] ==> TrimEnd(t)[0] == t[0];
    TrimEnd(t)
  }

  /** What trimming keeps is one contiguous middle part of `s`, starting where `TrimStart` stops. */
  lemma TrimKeepsMiddle(s: string)
    ensures
      var r, k := Trim(s), |s| - |TrimStart(s)|;
      k + |r| <= |s| && r == s[k..k + |r|]
  {
    var t := TrimStart(s);
    var k := |s| - |t|;
    assert t == s[k..] && Trim(s) == t[..|Trim(s)|];
  }

  /** Everything trimming drops, on either side of the middle part, is white space. */
  lemma TrimDropsWhiteSpace(s: string)
    ensures
      var r, k := Trim(s), |s| - |TrimStart(s)|;
      && (forall i :: 0 <= i < k ==> IsTrimmable(s[i]))
      && (forall i :: k + |r| <= i < |s| ==> IsTrimmable(s[i]))
  {
    var t := TrimStart(s);
    var r := TrimEnd(t);
    var k := |s| - |t|;
    assert t == s[k..];
    forall i | k + |r| <= i < |s|
      ensures IsTrimmable(s[i])
    {
      assert |r| <= i - k < |t| && s[i] == t[i - k];
    }
  }

  /** Trimming a string that neither starts nor ends with white space changes nothing. */
  lemma TrimUntrimmable(s: string)
    requires s == [] || (!IsTrimmable(s[0]) && !IsTrimmable(s[|s| - 1]))
    ensures Trim(s) == s
  {
  }

  /** A string made of white space only trims to "". */
  lemma {:induction false} TrimBlank(s: string)
    requires forall i :: 0 <= i < |s| ==> IsTrimmable(s[i])
    ensures Trim(s) == ""
  {
    if s != [] {
      assert TrimStart(s) == TrimStart(s[1..]);
      TrimBlank(s[1..]);
    }
  }

  /** The bullet that separates the parts of a preview subtitle. */
  const Separator: string := " \U{2022} "

  /**
   * `preview.prepare`: both labels may be `undefined` (`None`), exactly when
   * the email is and the label falls back to it. `localDate` stands for
   * `toLocaleDateString()` of the submission time. The title is the two
   * names, each `?? ''`, joined by a space and trimmed, or the email when
   * that leaves nothing.
   */
  function PreviewTitle(firstName: Option<string>, lastName: Option<string>, email: Option<string>): (t: Option<string>)
    ensures t.None? ==> email.None?
    ensures t != email ==> t.Some? && t.value != ""
    ensures
      var name := Trim(OrEmpty(firstName) + " " + OrEmpty(lastName));
      t == if name != "" then Some(name) else email
  {
    var name := Trim(OrEmpty(firstName) + " " + OrEmpty(lastName));
    if name != "" then Some(name) else email
  }

  function PreviewSubtitle(email: Option<string>, submittedAt: Option<string>, localDate: string): (t: Option<string>)
    ensures !Truthy(submittedAt) ==> t == email
    ensures Truthy(submittedAt) ==> t == Some(TemplateText(email) + Separator + localDate)
  {
    if Truthy(submittedAt) then Some(TemplateText(email) + Separator + localDate) else email
  }

  /** Names without surrounding white space give the title "first last". */
  lemma FullNameTitle(firstName: string, lastName: string, email: Option<string>)
    requires firstName != "" && !IsTrimmable(firstName[0])
    requires lastName != "" && !IsTrimmable(lastName[|lastName| - 1])
    ensures PreviewTitle(Some(firstName), Some(lastName), email) == Some(firstName + " " + lastName)
  {
    var s := firstName + " " + lastName;
    assert s[0] == firstName[0] && s[|s| - 1] == lastName[|lastName| - 1];
    TrimUntrimmable(s);
  }

  /** Without a first name the title is the trimmed last name: the joining space is trimmed away. */
  lemma AbsentFirstNameTitle(lastName: string, email: Option<string>)
    ensures PreviewTitle(None, Some(lastName), email) == if Trim(lastName) != "" then Some(Trim(lastName)) else email
  {
    var s := "" + " " + lastName;
    assert s[1..] == lastName;
    assert TrimStart(s) == TrimStart(lastName);
  }

  /** With no usable name the title is the email, or `undefined` when there is none. */
  lemma BlankNameTitle(firstName: Option<string>, lastName: Option<string>, email: Option<string>)
    requires forall i :: 0 <= i < |OrEmpty(firstName)| ==> IsTrimmable(OrEmpty(firstName)[i])
    requires forall i :: 0 <= i < |OrEmpty(lastName)| ==> IsTrimmable(OrEmpty(lastName)[i])
    ensures PreviewTitle(firstName, lastName, email) == email
  {
    var s := OrEmpty(firstName) + " " + OrEmpty(lastName);
    assert forall i :: 0 <= i < |s| ==> IsTrimmable(s[i]) by {
      forall i | 0 <= i < |s| ensures IsTrimmable(s[i]) {
        if i < |OrEmpty(firstName)| {
          assert s[i] == OrEmpty(firstName)[i];
        } else if i > |OrEmpty(firstName)| {
          assert s[i] == OrEmpty(lastName)[i - |OrEmpty(firstName)| - 1];
        }
      }
    }
    TrimBlank(s);
  }
}
