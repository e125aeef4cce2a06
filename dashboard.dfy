/** The scan dashboard: the optimistic list updates of a scan submission
    and of a delete, the grouping of a scan's issues by type, and the
    status and issue-count classifiers of the list rows. The requests are
    parameters standing for what the server answered. */
module Dashboard {
  import opened Js

  const PendingStatus := "pending"
  const FailedStatus := "failed"
  const CompletedStatus := "completed"
  const InvalidUrlMessage := "Please enter a valid URL"
  const ScanFailedMessage := "Failed to run scan. Please try again."
  const DeleteFailedMessage := "Failed to delete scan"

  /** `scan_id`: the placeholder `'pending'` or a server-assigned id. */
  datatype ScanId = PendingId | ServerId(id: nat)

  /** A scan as the dashboard holds it. `issueCount` is absent when the
      object has no such field. */
  datatype ClientScan = ClientScan(scanId: ScanId, url: string, status: string, issueCount: Option<int>, results: Json)

  /** The placeholder shown while a scan runs. */
  function PendingScan(url: string): ClientScan {
    ClientScan(PendingId, url, PendingStatus, Some(0), Undefined)
  }

  predicate NoPending(scans: seq<ClientScan>) {
    forall i :: 0 <= i < |scans| ==> scans[i].scanId != PendingId
  }

  // ---------------------------------------------------------------------
  // Issue grouping in the results modal
  // ---------------------------------------------------------------------

  /** `scan.results?.issues || []` (a truthy non-array is read as no issues). */
  function IssuesOf(scan: ClientScan): (issues: seq<Json>)
    ensures !Truthy(Prop(scan.results, "issues")) ==> issues == []
    ensures Prop(scan.results, "issues").Arr? ==> issues == Prop(scan.results, "issues").items
  {
    var v := Or(Prop(scan.results, "issues"), Arr([]));
    if v.Arr? then v.items else []
  }

  /** `issues.filter(i => i.type === t)` */
  function OfType(issues: seq<Json>, t: string): (r: seq<Json>)
    ensures |r| <= |issues|
    ensures forall x :: x in r <==> x in issues && Prop(x, "type") == Str(t)
  {
    if issues == [] then []
    else (if Prop(issues[0], "type") == Str(t) then [issues[0]] else []) + OfType(issues[1..], t)
  }

  /** Filtering keeps the original order: it distributes over concatenation. */
  lemma {:induction false} OfTypeAppend(a: seq<Json>, b: seq<Json>, t: string)
    ensures OfType(a + b, t) == OfType(a, t) + OfType(b, t)
  {
    if a == [] {
      assert a + b == b;
    } else {
      var ab := a + b;
      assert ab[0] == a[0] && ab[1..] == a[1..] + b;
      var head := if Prop(a[0], "type") == Str(t) then [a[0]] else [];
      assert OfType(ab, t) == head + OfType(a[1..] + b, t);
      assert OfType(a, t) == head + OfType(a[1..], t);
      OfTypeAppend(a[1..], b, t);
    }
  }

  datatype IssueGroups = IssueGroups(errors: seq<Json>, warnings: seq<Json>, notices: seq<Json>)

  /** The results modal's three groups of a scan's issues. */
  function GroupIssues(scan: ClientScan): (g: IssueGroups)
    ensures g.errors == OfType(IssuesOf(scan), "error")
    ensures g.warnings == OfType(IssuesOf(scan), "warning")
    ensures g.notices == OfType(IssuesOf(scan), "notice")
    ensures |g.errors| + |g.warnings| + |g.notices| <= |IssuesOf(scan)|
  {
    var issues := IssuesOf(scan);
    GroupsWithinTotal(issues);
    IssueGroups(OfType(issues, "error"), OfType(issues, "warning"), OfType(issues, "notice"))
  }

  /** The three groups never hold more issues than the scan has. */
  lemma {:induction false} GroupsWithinTotal(issues: seq<Json>)
    ensures |OfType(issues, "error")| + |OfType(issues, "warning")| + |OfType(issues, "notice")| <= |issues|
  {
    if issues != [] {
      GroupsWithinTotal(issues[1..]);
    }
  }

  /** A scan without results has three empty groups. */
  lemma NoResultsNoGroups(scan: ClientScan)
    requires !Truthy(scan.results)
    ensures GroupIssues(scan) == IssueGroups([], [], [])
  {
  }

  // ---------------------------------------------------------------------
  // List updates
  // ---------------------------------------------------------------------

  /** `prev.map(scan => scan.scan_id === 'pending' ? newScan : scan)` */
  function ReplacePending(scans: seq<ClientScan>, newScan: ClientScan): (r: seq<ClientScan>)
    ensures |r| == |scans|
    ensures forall i :: 0 <= i < |r| ==>
              r[i] == if scans[i].scanId == PendingId then newScan else scans[i]
  {
    if scans == [] then []
    else [if scans[0].scanId == PendingId then newScan else scans[0]] + ReplacePending(scans[1..], newScan)
  }

  /** `prev.filter(scan => scan.scan_id !== id)` */
  function WithoutId(scans: seq<ClientScan>, id: ScanId): (r: seq<ClientScan>)
    ensures |r| <= |scans|
    ensures forall x :: x in r <==> x in scans && x.scanId != id
  {
    if scans == [] then []
    else (if scans[0].scanId != id then [scans[0]] else []) + WithoutId(scans[1..], id)
  }

  /** Removing by id keeps the order of what stays. */
  lemma {:induction false} WithoutIdAppend(a: seq<ClientScan>, b: seq<ClientScan>, id: ScanId)
    ensures WithoutId(a + b, id) == WithoutId(a, id) + WithoutId(b, id)
    decreases |a|
  {
    if a == [] {
      assert a + b == b;
    } else {
      var ab := a + b;
      assert ab != [] && ab[0] == a[0] && ab[1..] == a[1..] + b;
      WithoutIdAppend(a[1..], b, id);
    }
  }

  /** Removing an id that does not occur changes nothing. */
  lemma {:induction false} WithoutAbsentId(scans: seq<ClientScan>, id: ScanId)
    requires forall i :: 0 <= i < |scans| ==> scans[i].scanId != id
    ensures WithoutId(scans, id) == scans
  {
    if scans != [] {
      WithoutAbsentId(scans[1..], id);
    }
  }

  /** A failed submission undoes the placeholder: the list is as before. */
  lemma FailedSubmitRestores(scans: seq<ClientScan>, url: string)
    requires NoPending(scans)
    ensures WithoutId([PendingScan(url)] + scans, PendingId) == scans
  {
    WithoutIdAppend([PendingScan(url)], scans, PendingId);
    WithoutAbsentId(scans, PendingId);
  }

  /** A successful submission leaves the new scan on top of the old list. */
  lemma SucceededSubmitPrepends(scans: seq<ClientScan>, url: string, newScan: ClientScan)
    requires NoPending(scans)
    ensures ReplacePending([PendingScan(url)] + scans, newScan) == [newScan] + scans
  {
  }

  // ---------------------------------------------------------------------
  // Row classifiers
  // ---------------------------------------------------------------------

  datatype StatusIcon = Spinner | ServerCrash | AlertTriangle | CheckCircle

  /** `getStatusIcon`: pending before failed before a positive issue count. */
  function StatusIconOf(scan: ClientScan): (icon: StatusIcon)
    ensures icon == Spinner <==> scan.status == PendingStatus
    ensures icon == ServerCrash <==> scan.status == FailedStatus
    ensures icon == AlertTriangle <==>
              scan.status != PendingStatus && scan.status != FailedStatus
              && scan.issueCount.Some? && scan.issueCount.value > 0
  {
    if scan.status == PendingStatus then Spinner
    else if scan.status == FailedStatus then ServerCrash
    else if scan.issueCount.Some? && scan.issueCount.value > 0 then AlertTriangle
    else CheckCircle
  }

  datatype CountColour = Green | Yellow | Red

  /** The colour of a completed scan's issue count. */
  function CountColourOf(count: Option<int>): (c: CountColour)
    ensures count == Some(0) ==> c == Green
    ensures count.Some? && count.value > 10 ==> c == Red
    ensures count.Some? && 1 <= count.value <= 10 ==> c == Yellow
    ensures count.None? ==> c == Yellow
  {
    if count == Some(0) then Green
    else if count.Some? && count.value > 10 then Red
    else Yellow
  }

  /** The noun after the count. */
  function IssueWord(count: Option<int>): (w: string)
    ensures w == "issue" <==> count == Some(1)
    ensures count != Some(1) ==> w == "issues"
  {
    if count == Some(1) then "issue" else "issues"
  }

  // ---------------------------------------------------------------------
  // Component state
  // ---------------------------------------------------------------------

  /** What the scan request ended with: the scan the server returned, or a
      failure with the server's error text if it sent one. */
  datatype SubmitOutcome = Created(scan: ClientScan) | RequestFailed(serverError: Option<string>)

  /** `String.prototype.trim` removes these characters: the white-space and
      line-terminator code points of ECMAScript, listed by code point. */
  predicate IsJsWhitespace(c: char) {
    var n := c as int;
    9 <= n <= 13 || n == 0x20 || n == 0xA0 || n == 0x1680
    || 0x2000 <= n <= 0x200A || n == 0x2028 || n == 0x2029
    || n == 0x202F || n == 0x205F || n == 0x3000 || n == 0xFEFF
  }

  /** `s.trimStart()`: the suffix left after the leading white space. */
  function TrimStart(s: string): string {
    if s == [] || !IsJsWhitespace(s[0]) then s else TrimStart(s[1..])
  }

  /** `s.trimEnd()`: the prefix left before the trailing white space. */
  function TrimEnd(s: string): string {
    if s == [] || !IsJsWhitespace(s[|s| - 1]) then s else TrimEnd(s[..|s| - 1])
  }

  /** `s.trim()` */
  function Trim(s: string): string {
    TrimEnd(TrimStart(s))
  }

  /** `trimStart` removes a white-space prefix and stops at the first other
      character. */
  lemma {:induction false} TrimStartRemovesWhitespace(s: string)
    ensures |TrimStart(s)| <= |s| && TrimStart(s) == s[|s| - |TrimStart(s)|..]
    ensures TrimStart(s) == [] || !IsJsWhitespace(TrimStart(s)[0])
    ensures forall i :: 0 <= i < |s| - |TrimStart(s)| ==> IsJsWhitespace(s[i])
  {
    if s != [] && IsJsWhitespace(s[0]) {
      var t := s[1..];
      TrimStartRemovesWhitespace(t);
      var r := TrimStart(t);
      assert TrimStart(s) == r;
      assert t[|t| - |r|..] == s[|s| - |r|..];
      forall i | 0 < i < |s| - |r| ensures IsJsWhitespace(s[i]) {
        assert s[i] == t[i - 1];
      }
    }
  }

  /** `trimEnd` removes a white-space suffix and stops at the last other
      character. */
  lemma {:induction false} TrimEndRemovesWhitespace(s: string)
    ensures |TrimEnd(s)| <= |s| && TrimEnd(s) == s[..|TrimEnd(s)|]
    ensures TrimEnd(s) == [] || !IsJsWhitespace(TrimEnd(s)[|TrimEnd(s)| - 1])
    ensures forall i :: |TrimEnd(s)| <= i < |s| ==> IsJsWhitespace(s[i])
  {
    if s != [] && IsJsWhitespace(s[|s| - 1]) {
      var t := s[..|s| - 1];
      TrimEndRemovesWhitespace(t);
      var r := TrimEnd(t);
      assert TrimEnd(s) == r;
      assert t[..|r|] == s[..|r|];
      forall i | |r| <= i < |s| - 1 ensures IsJsWhitespace(s[i]) {
        assert s[i] == t[i];
      }
    }
  }

  /** `!s.trim()` */
  predicate Blank(s: string) {
    Trim(s) == ""
  }

  /** A url is blank exactly when every character of it is white space. */
  lemma BlankIffAllWhitespace(s: string)
    ensures Blank(s) <==> forall i :: 0 <= i < |s| ==> IsJsWhitespace(s[i])
  {
    var t := TrimStart(s);
    TrimStartRemovesWhitespace(s);
    TrimEndRemovesWhitespace(t);
    assert forall i :: |s| - |t| <= i < |s| ==> s[i] == t[i - (|s| - |t|)];
  }

  class DashboardView {
    var url: string
    var scans: seq<ClientScan>
    var scanning: bool
    var error: string
    var selectedScan: Option<ClientScan>

    constructor ()
      ensures url == "" && scans == [] && !scanning && error == "" && selectedScan.None?
    {
      url, scans, scanning, error, selectedScan := "", [], false, "", None;
    }

    /** `handleSubmit`: prepend a placeholder, then replace it by the
        returned scan or drop it again. */
    method Submit(outcome: SubmitOutcome)
      modifies this
      ensures Blank(old(url)) ==>
                && error == InvalidUrlMessage && scans == old(scans) && url == old(url)
                && scanning == old(scanning) && selectedScan == old(selectedScan)
      ensures !Blank(old(url)) ==> !scanning
      ensures !Blank(old(url)) && outcome.Created? ==>
                && scans == ReplacePending([PendingScan(old(url))] + old(scans), outcome.scan)
                && url == "" && error == ""
                && selectedScan == if outcome.scan.status == CompletedStatus then Some(outcome.scan)
                                   else old(selectedScan)
      ensures !Blank(old(url)) && outcome.RequestFailed? ==>
                && scans == WithoutId([PendingScan(old(url))] + old(scans), PendingId)
                && url == old(url)
                && error == OrDefault(outcome.serverError, ScanFailedMessage)
                && selectedScan == old(selectedScan)
    {
      var blank := Blank(url);
      if blank {
        error := InvalidUrlMessage;
        return;
      }
      scanning := true;
      error := "";
      scans := [PendingScan(url)] + scans;
      match outcome {
        case Created(newScan) =>
          scans := ReplacePending(scans, newScan);
          url := "";
          if newScan.status == CompletedStatus {
            selectedScan := Some(newScan);
          }
        case RequestFailed(serverError) =>
          scans := WithoutId(scans, PendingId);
          error := OrDefault(serverError, ScanFailedMessage);
      }
      scanning := false;
    }

    /** `handleDelete`: after confirmation, drop the scan once the server
        has deleted it, or report the failure. */
    method Delete(scanId: ScanId, confirmed: bool, deleteOk: bool)
      modifies this
      ensures url == old(url) && scanning == old(scanning) && selectedScan == old(selectedScan)
      ensures !confirmed ==> scans == old(scans) && error == old(error)
      ensures confirmed && deleteOk ==> scans == WithoutId(old(scans), scanId) && error == old(error)
      ensures confirmed && !deleteOk ==> scans == old(scans) && error == DeleteFailedMessage
    {
      if !confirmed {
        return;
      }
      if deleteOk {
        scans := WithoutId(scans, scanId);
      } else {
        error := DeleteFailedMessage;
      }
    }
  }
}
