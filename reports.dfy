/**
 * The residente's reports tab (src/components/residente/ReportsTab.tsx): the
 * list of e-mail recipients for automatic report mail, and the local copy
 * of the reports that the edit dialog updates.
 */
module Reports {
  import opened Lists
  import opened Types
  import opened Wire

  /** `prev.includes(e) ? prev : [...prev, e]`. */
  function WithRecipient(emails: seq<string>, e: string): (r: seq<string>)
    ensures forall x :: x in r <==> x in emails || x == e
    ensures e in emails ==> r == emails
    ensures e !in emails ==> r == emails + [e]
  {
    if e in emails then emails else emails + [e]
  }

  /** Adding an address twice is adding it once. */
  lemma WithRecipientIdempotent(emails: seq<string>, e: string)
    ensures WithRecipient(WithRecipient(emails, e), e) == WithRecipient(emails, e)
  {
  }

  /** Adding keeps the list free of duplicates. */
  lemma WithRecipientKeepsNoDuplicates(emails: seq<string>, e: string)
    requires NoDuplicates(emails)
    ensures NoDuplicates(WithRecipient(emails, e))
  {
  }

  /** `e => e !== email`. */
  function Other(email: string): string -> bool {
    (x: string) => x != email
  }

  /** `prev.filter(e => e !== email)`. */
  function WithoutRecipient(emails: seq<string>, email: string): (r: seq<string>)
    ensures email !in r
    ensures forall x :: x != email ==> (x in r <==> x in emails)
  {
    FilterMembership(emails, Other(email));
    Filter(emails, Other(email))
  }

  /** On a duplicate-free list, removing the address at `i` drops exactly that position. */
  lemma WithoutRecipientDropsOne(emails: seq<string>, i: nat)
    requires i < |emails| && NoDuplicates(emails)
    ensures WithoutRecipient(emails, emails[i]) == emails[..i] + emails[i + 1..]
  {
    var p := Other(emails[i]);
    assert emails == emails[..i] + [emails[i]] + emails[i + 1..];
    assert forall k :: 0 <= k < i ==> p(emails[..i][k]);
    var rest := emails[i + 1..];
    assert forall k :: 0 <= k < |rest| ==> rest[k] == emails[i + 1 + k] && p(rest[k]);
    FilterDropsOne(emails[..i], emails[i], rest, p);
  }

  /** Removing keeps the list free of duplicates. */
  lemma WithoutRecipientKeepsNoDuplicates(emails: seq<string>, email: string)
    requires NoDuplicates(emails)
    ensures NoDuplicates(WithoutRecipient(emails, email))
  {
    var r := WithoutRecipient(emails, email);
    var ix := FilterPositions(emails, Other(email));
    FilterPositionsSound(emails, Other(email));
    forall a, b | 0 <= a < b < |r|
      ensures r[a] != r[b]
    {
      assert r[a] == emails[ix[a]] && r[b] == emails[ix[b]] && ix[a] < ix[b];
    }
  }

  /** Removing an address just added to a list without it gives the list back. */
  lemma {:induction false} AddThenRemove(emails: seq<string>, e: string)
    requires e !in emails
    ensures WithoutRecipient(WithRecipient(emails, e), e) == emails
  {
    FilterConcat(emails, [e], Other(e));
    FilterKeepsAll(emails, Other(e));
    assert [e][1..] == [];
  }

  /** The reports tab's state. */
  class ReportsTab {
    var emails: seq<string>
    var newEmail: string
    var localReports: seq<Report>
    var selectedReport: Option<Report>
    var editOpen: bool

    /** The recipient list never holds an address twice. */
    ghost predicate Valid()
      reads this
    {
      NoDuplicates(emails)
    }

    constructor (reports: seq<Report>)
      ensures Valid()
      ensures emails == [] && newEmail == "" && localReports == reports
      ensures selectedReport == None && !editOpen
    {
      emails := [];
      newEmail := "";
      localReports := reports;
      selectedReport := None;
      editOpen := false;
    }

    /** Typing in the address input. */
    method SetNewEmail(text: string)
      modifies this
      ensures newEmail == text
      ensures emails == old(emails) && localReports == old(localReports)
      ensures selectedReport == old(selectedReport) && editOpen == old(editOpen)
    {
      newEmail := text;
    }

    /**
     * "Agregar": an empty input changes nothing; otherwise the address is
     * appended unless already listed, and the input is cleared.
     */
    method AddEmail()
      requires Valid()
      modifies this
      ensures Valid()
      ensures old(newEmail) == "" ==> emails == old(emails) && newEmail == old(newEmail)
      ensures old(newEmail) != "" ==> emails == WithRecipient(old(emails), old(newEmail)) && newEmail == ""
      ensures localReports == old(localReports) && selectedReport == old(selectedReport) && editOpen == old(editOpen)
    {
      if newEmail == "" {
        return;
      }
      WithRecipientKeepsNoDuplicates(emails, newEmail);
      emails := WithRecipient(emails, newEmail);
      newEmail := "";
    }

    /** The remove button next to an address. */
    method RemoveEmail(email: string)
      requires Valid()
      modifies this
      ensures Valid()
      ensures emails == WithoutRecipient(old(emails), email)
      ensures newEmail == old(newEmail) && localReports == old(localReports)
      ensures selectedReport == old(selectedReport) && editOpen == old(editOpen)
    {
      WithoutRecipientKeepsNoDuplicates(emails, email);
      emails := WithoutRecipient(emails, email);
    }

    /** `handleOpenEdit`. */
    method OpenEdit(report: Report)
      modifies this
      ensures selectedReport == Some(report) && editOpen
      ensures emails == old(emails) && newEmail == old(newEmail) && localReports == old(localReports)
    {
      selectedReport := Some(report);
      editOpen := true;
    }

    /** The edit form's title, type and description inputs change the selected report. */
    method EditSelected(title: string, kind: ReportType, description: string)
      modifies this
      ensures selectedReport == if old(selectedReport).Some?
                                then Some(old(selectedReport).value.(title := title, kind := kind, description := description))
                                else None
      ensures emails == old(emails) && newEmail == old(newEmail) && localReports == old(localReports)
      ensures editOpen == old(editOpen)
    {
      if selectedReport.Some? {
        selectedReport := Some(selectedReport.value.(title := title, kind := kind, description := description));
      }
    }

    /**
     * `handleUpdateReport`: with no selected report nothing happens;
     * otherwise every report with its id is replaced and the dialog closes.
     */
    method UpdateReport()
      modifies this
      ensures old(selectedReport).None? ==> localReports == old(localReports) && editOpen == old(editOpen)
      ensures old(selectedReport).Some? ==>
                localReports == ReplaceById(old(localReports), ReportId, old(selectedReport).value) && !editOpen
      ensures emails == old(emails) && newEmail == old(newEmail) && selectedReport == old(selectedReport)
    {
      if selectedReport.None? {
        return;
      }
      localReports := ReplaceById(localReports, ReportId, selectedReport.value);
      editOpen := false;
    }
  }
}
