/**
 * The credits text format shared by the editor and the server.
 *
 * The editor shows a magazine's credits as one `role: name` line per
 * credit (src/app/admin/magazines/create/CreateMagazineContent.tsx:87-95);
 * the preview page and the create route read such text back with the same
 * line parser (src/app/admin/magazines/preview/page.tsx:40-57, repeated at
 * src/app/api/control/magazines/route.ts:189-206): blank lines are
 * skipped, a line splits at its first colon, both halves are trimmed, a
 * line without a colon is credited to the role `기타` ("other"), and an
 * entry with an empty role or name is dropped.
 */
module Credits {
  import opened Text

  datatype Credit = Credit(role: string, name: string)

  /** The role given to a line that has no colon. */
  const OtherRole: string := "기타"

  /** One non-blank line: split at the first `:`, or all of it as a name with the fallback role. */
  function ParseLine(line: string): (c: Credit)
    ensures IsTrimmed(c.role) && IsTrimmed(c.name)
    ensures ':' !in line ==> c == Credit(OtherRole, Trim(line))
  {
    var k := IndexOf(line, ':');
    if k == -1 then Credit(OtherRole, Trim(line))
    else Credit(Trim(line[..k]), Trim(line[k + 1..]))
  }

  predicate Complete(c: Credit) {
    c.role != "" && c.name != ""
  }

  /** `lines.filter(line => line.trim())`. */
  function NonBlankLines(lines: seq<string>): (r: seq<string>)
    ensures |r| <= |lines|
    ensures forall i :: 0 <= i < |r| ==> !IsBlank(r[i]) && r[i] in lines
    decreases |lines|
  {
    if |lines| == 0 then []
    else if IsBlank(lines[0]) then NonBlankLines(lines[1..])
    else [lines[0]] + NonBlankLines(lines[1..])
  }

  /** `.map(ParseLine)`. */
  function ParseEach(lines: seq<string>): (r: seq<Credit>)
    ensures |r| == |lines|
    ensures forall i :: 0 <= i < |r| ==> r[i] == ParseLine(lines[i])
  {
    seq(|lines|, i requires 0 <= i < |lines| => ParseLine(lines[i]))
  }

  /** `.filter(item => item.role && item.name)`. */
  function KeepComplete(cs: seq<Credit>): (r: seq<Credit>)
    ensures |r| <= |cs|
    ensures forall i :: 0 <= i < |r| ==> Complete(r[i]) && r[i] in cs
    decreases |cs|
  {
    if |cs| == 0 then []
    else if Complete(cs[0]) then [cs[0]] + KeepComplete(cs[1..])
    else KeepComplete(cs[1..])
  }

  /** `convertCreditsStringToArray(text)`: at most one complete credit per non-blank line. */
  function ParseCredits(text: string): (r: seq<Credit>)
    ensures IsBlank(text) ==> r == []
    ensures |r| <= |NonBlankLines(Split(text, '\n'))|
    ensures forall i :: 0 <= i < |r| ==> Complete(r[i])
  {
    if IsBlank(text) then [] else KeepComplete(ParseEach(NonBlankLines(Split(text, '\n'))))
  }

  /** `${role}: ${name}`. */
  function CreditLine(c: Credit): string {
    c.role + ": " + c.name
  }

  function CreditLines(cs: seq<Credit>): (lines: seq<string>)
    ensures |lines| == |cs|
    ensures forall i :: 0 <= i < |cs| ==> lines[i] == CreditLine(cs[i])
  {
    seq(|cs|, i requires 0 <= i < |cs| => CreditLine(cs[i]))
  }

  /** The editor's credits text: one line per credit, joined by newlines. */
  function CreditsText(cs: seq<Credit>): string {
    Join(CreditLines(cs), "\n")
  }

  /**
   * The credits text a stored magazine loads into the editor: an array is
   * serialised, a string is taken as it is, anything else leaves the
   * field at its current value.
   */
  datatype StoredCredits = CreditArray(credits: seq<Credit>) | CreditString(text: string) | NoCredits

  function LoadedCreditsText(stored: StoredCredits, current: string): (t: string)
    ensures stored.CreditArray? ==> t == CreditsText(stored.credits)
    ensures stored.CreditString? ==> t == stored.text
    ensures stored.NoCredits? ==> t == current
  {
    match stored
    case CreditArray(cs) => CreditsText(cs)
    case CreditString(s) => s
    case NoCredits => current
  }

  /** A credit the text format carries faithfully. */
  predicate Representable(c: Credit) {
    Complete(c) && IsTrimmed(c.role) && IsTrimmed(c.name)
    && ':' !in c.role && '\n' !in c.role && '\n' !in c.name
  }

  /** A line `role:rest` with a colon-free role parses to the trimmed halves, so names may hold colons. */
  lemma ParseLineAtFirstColon(role: string, rest: string)
    requires ':' !in role
    ensures ParseLine(role + ":" + rest) == Credit(Trim(role), Trim(rest))
  {
    var line := role + ":" + rest;
    IndexOfAfterPrefix(role, ':', rest);
    assert line[..|role|] == role;
    assert line[|role| + 1..] == rest;
  }

  /** A line that starts with a non-whitespace character is not blank. */
  lemma NotBlankByFirst(s: string)
    requires |s| >= 1 && !IsWhitespace(s[0])
    ensures !IsBlank(s)
  {
    assert !AllWhitespace(s);
  }

  lemma ParseCreditLine(c: Credit)
    requires Representable(c)
    ensures !IsBlank(CreditLine(c))
    ensures ParseLine(CreditLine(c)) == c
  {
    CreditLineShape(c);
    NotBlankByFirst(CreditLine(c));
    ParseLineAtFirstColon(c.role, " " + c.name);
    SpaceThenTrimmed(c.name);
  }

  lemma CreditLineShape(c: Credit)
    requires |c.role| >= 1
    ensures CreditLine(c) == c.role + ":" + (" " + c.name)
    ensures CreditLine(c)[0] == c.role[0]
  {
  }

  /** `(' ' + s).trim()` of a trimmed `s` is `s`. */
  lemma SpaceThenTrimmed(s: string)
    requires IsTrimmed(s)
    ensures Trim(" " + s) == s
  {
    assert AllWhitespace(" ");
    TrimSkipsLeadingWhitespace(" ", s);
  }

  lemma {:induction false} NonBlankLinesOfNonBlank(lines: seq<string>)
    requires forall i :: 0 <= i < |lines| ==> !IsBlank(lines[i])
    ensures NonBlankLines(lines) == lines
    decreases |lines|
  {
    if |lines| > 0 {
      NonBlankLinesOfNonBlank(lines[1..]);
      assert lines == [lines[0]] + lines[1..];
    }
  }

  lemma {:induction false} KeepCompleteOfComplete(cs: seq<Credit>)
    requires forall i :: 0 <= i < |cs| ==> Complete(cs[i])
    ensures KeepComplete(cs) == cs
    decreases |cs|
  {
    if |cs| > 0 {
      KeepCompleteOfComplete(cs[1..]);
      assert cs == [cs[0]] + cs[1..];
    }
  }

  lemma ParseCreditLines(cs: seq<Credit>)
    requires forall i :: 0 <= i < |cs| ==> Representable(cs[i])
    ensures KeepComplete(ParseEach(NonBlankLines(CreditLines(cs)))) == cs
  {
    var lines := CreditLines(cs);
    var parsed := ParseEach(lines);
    forall i | 0 <= i < |cs|
      ensures !IsBlank(lines[i]) && parsed[i] == cs[i]
    {
      ParseCreditLine(cs[i]);
    }
    NonBlankLinesOfNonBlank(lines);
    assert parsed == cs;
    KeepCompleteOfComplete(cs);
  }

  lemma JoinStartsWithFirst(parts: seq<string>, sep: string)
    requires |parts| >= 1 && |parts[0]| >= 1
    ensures |Join(parts, sep)| >= 1 && Join(parts, sep)[0] == parts[0][0]
  {
  }

  /**
   * Reading back the text the editor writes gives the original credits,
   * as long as each role and name is non-empty and trimmed, no role holds
   * a colon and neither holds a newline.
   */
  lemma CreditsRoundTrip(cs: seq<Credit>)
    requires forall i :: 0 <= i < |cs| ==> Representable(cs[i])
    ensures ParseCredits(CreditsText(cs)) == cs
  {
    var lines := CreditLines(cs);
    if |cs| == 0 {
      assert CreditsText(cs) == "";
    } else {
      forall i | 0 <= i < |lines|
        ensures '\n' !in lines[i]
      {
        assert lines[i] == cs[i].role + ": " + cs[i].name;
      }
      SplitJoin(lines, '\n');
      ParseCreditLine(cs[0]);
      JoinStartsWithFirst(lines, "\n");
      NotBlankByFirst(CreditsText(cs));
      ParseCreditLines(cs);
    }
  }
}
