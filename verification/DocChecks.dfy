/** The passes over the documents: scripts/batch_update_docs.py adds version headers,
    scripts/check_doc_consistency.py looks for missing or outdated ones. */
module DocChecks {
  import opened Common
  import opened Text
  import opened DocHeaders

  /** The documents on disk by path, and the paths whose reading or writing raises. */
  datatype Disk = Disk(files: map<string, string>, broken: set<string>)

  /** `path` can be read and written and has no header yet. */
  predicate Updatable(disk: Disk, path: string) {
    path in disk.files && path !in disk.broken && !StartsWith(disk.files[path], FENCE)
  }

  /** Every updatable core document gets the header in front; nothing else changes. */
  function WithHeaders(disk: Disk, coreDocs: seq<string>, header: string): Disk {
    disk.(files := map path | path in disk.files ::
            if path in coreDocs && Updatable(disk, path) then header + disk.files[path] else disk.files[path])
  }

  class DocumentationUpdater {
    var disk: Disk
    const currentVersion: string
    const currentDate: string

    constructor (disk: Disk, version: string, date: string)
      ensures this.disk == disk && currentVersion == version && currentDate == date
    {
      this.disk, currentVersion, currentDate := disk, version, date;
    }

    /** create_version_header with the default status. */
    function Header(): string {
      VersionHeader(currentVersion, currentDate, "待更新")
    }

    /** add_version_headers: the files written are listed once each. */
    method AddVersionHeaders(coreDocs: seq<string>) returns (updatedFiles: seq<string>)
      modifies this
      ensures disk == WithHeaders(old(disk), coreDocs, Header())
      ensures forall path :: path in updatedFiles <==> path in coreDocs && Updatable(old(disk), path)
      ensures forall i, j :: 0 <= i < j < |updatedFiles| ==> updatedFiles[i] != updatedFiles[j]
    {
      updatedFiles := [];
      HeaderIsFenced(currentVersion, currentDate, "待更新");
      assert disk.files == WithHeaders(old(disk), coreDocs[..0], Header()).files;
      for n := 0 to |coreDocs|
        invariant disk == WithHeaders(old(disk), coreDocs[..n], Header())
        invariant forall path :: path in updatedFiles <==> path in coreDocs[..n] && Updatable(old(disk), path)
        invariant forall i, j :: 0 <= i < j < |updatedFiles| ==> updatedFiles[i] != updatedFiles[j]
      {
        var docPath := coreDocs[n];
        assert coreDocs[..n + 1] == coreDocs[..n] + [docPath];
        NextHeader(old(disk), coreDocs[..n], docPath, Header());
        if docPath !in disk.files {
          continue;
        }
        if docPath in disk.broken {
          continue;
        }
        var content := disk.files[docPath];
        if StartsWith(content, FENCE) {
          continue;
        }
        disk := disk.(files := disk.files[docPath := Header() + content]);
        updatedFiles := updatedFiles + [docPath];
      }
      assert coreDocs[..|coreDocs|] == coreDocs;
    }
  }

  lemma HeaderIsFenced(version: string, date: string, status: string)
    ensures StartsWith(VersionHeader(version, date, status), FENCE)
  {
  }

  lemma NextHeader(disk: Disk, done: seq<string>, path: string, header: string)
    requires StartsWith(header, FENCE)
    ensures var before, after := WithHeaders(disk, done, header), WithHeaders(disk, done + [path], header);
            if path in before.files && path !in before.broken && !StartsWith(before.files[path], FENCE)
            then path !in done && Updatable(disk, path)
                 && after == before.(files := before.files[path := header + before.files[path]])
            else after == before && (Updatable(disk, path) ==> path in done)
  {
    var before, after := WithHeaders(disk, done, header), WithHeaders(disk, done + [path], header);
    if path in disk.files {
      FencedPrefix(header, disk.files[path]);
      if path in before.files && path !in before.broken && !StartsWith(before.files[path], FENCE) {
        assert after.files == before.files[path := header + before.files[path]];
      } else {
        assert after.files == before.files;
      }
    } else {
      assert after.files == before.files;
    }
  }

  lemma FencedPrefix(header: string, content: string)
    requires StartsWith(header, FENCE)
    ensures StartsWith(header + content, FENCE)
  {
    assert (header + content)[..3] == header[..3] == FENCE;
  }

  /** A second pass finds a header everywhere and writes nothing. */
  lemma SecondPassIsIdle(disk: Disk, coreDocs: seq<string>, header: string, path: string)
    requires StartsWith(header, FENCE) && path in coreDocs
    ensures !Updatable(WithHeaders(disk, coreDocs, header), path)
    ensures WithHeaders(WithHeaders(disk, coreDocs, header), coreDocs, header) == WithHeaders(disk, coreDocs, header)
  {
    var once := WithHeaders(disk, coreDocs, header);
    forall p | p in coreDocs
      ensures !Updatable(once, p)
    {
      if p in disk.files {
        FencedPrefix(header, disk.files[p]);
      }
    }
    assert WithHeaders(once, coreDocs, header).files == once.files;
  }

  // ---- check_doc_consistency ----

  datatype Issue =
    | NoVersionFile
    | Outdated(path: string, documented: string, project: string)
    | MissingVersion(path: string)
    | MissingHeader(path: string)
    | Unreadable(path: string)

  predicate IsCore(path: string) {
    Contains(path, "agents") || Contains(path, "architecture") || Contains(path, "development")
  }

  /** The text of a document, if it can be read. */
  function DocText(disk: Disk, path: string): Option<string> {
    if path !in disk.files || path in disk.broken then None else Some(disk.files[path])
  }

  /** What check_version_consistency reports about one document. */
  function DocIssues(disk: Disk, path: string, project: string): seq<Issue> {
    TextIssues(DocText(disk, path), path, project)
  }

  function TextIssues(text: Option<string>, path: string, project: string): seq<Issue> {
    if text.None? then [Unreadable(path)]
    else
      match ParseVersion(text.value)
      case NoHeader => if IsCore(path) then [MissingHeader(path)] else []
      case Unclosed => []
      case NoVersion => [MissingVersion(path)]
      case Version(v) => if v != project then [Outdated(path, v, project)] else []
  }

  /** The results of `f` for all of `xs`, in order. */
  function Collect<A, B>(f: A -> seq<B>, xs: seq<A>): seq<B> {
    if xs == [] then [] else Collect(f, xs[..|xs| - 1]) + f(xs[|xs| - 1])
  }

  lemma CollectNext<A, B>(f: A -> seq<B>, xs: seq<A>, n: nat)
    requires n < |xs|
    ensures Collect(f, xs[..n + 1]) == Collect(f, xs[..n]) + f(xs[n])
  {
    assert xs[..n + 1][..n] == xs[..n];
  }

  lemma {:induction false} CollectNothing<A, B>(f: A -> seq<B>, xs: seq<A>)
    ensures Collect(f, xs) == [] <==> forall k :: 0 <= k < |xs| ==> f(xs[k]) == []
    decreases |xs|
  {
    if xs != [] {
      var front := xs[..|xs| - 1];
      CollectNothing(f, front);
      assert forall k :: 0 <= k < |front| ==> xs[k] == front[k];
    }
  }

  function Checker(disk: Disk, project: string): string -> seq<Issue> {
    (path: string) => DocIssues(disk, path, project)
  }

  function AllIssues(disk: Disk, docs: seq<string>, project: string): seq<Issue> {
    Collect(Checker(disk, project), docs)
  }

  // ---- what must be reported ----

  const CORE_PARTS := {"agents", "architecture", "development"}

  /** A document without header is accepted unless its path names one of the core parts. */
  predicate NeedsHeader(path: string) {
    exists part :: part in CORE_PARTS && Contains(path, part)
  }

  /** There is a fence behind the one that the text starts with. */
  predicate Closed(text: string) {
    exists i :: 3 <= i <= |text| && OccursAt(text, "---", i)
  }

  /** `issue` is what there is to say about the document. */
  predicate Deserves(disk: Disk, path: string, project: string, issue: Issue) {
    if path !in disk.files || path in disk.broken then issue == Unreadable(path)
    else
      var text := disk.files[path];
      if !("---" <= text) then NeedsHeader(path) && issue == MissingHeader(path)
      else
        && Closed(text)
        && match ParseVersion(text)
           case NoVersion => issue == MissingVersion(path)
           case Version(v) => v != project && issue == Outdated(path, v, project)
           case _ => false
  }

  /** A document passes when it can be read and has a header with the version of the project, or one that
      is never closed, or none although it needs none. */
  predicate Passes(disk: Disk, path: string, project: string) {
    && path in disk.files && path !in disk.broken
    && if "---" <= disk.files[path] then !Closed(disk.files[path]) || ParseVersion(disk.files[path]) == Version(project)
       else !NeedsHeader(path)
  }

  lemma CoreNeedsHeader(path: string)
    ensures IsCore(path) <==> NeedsHeader(path)
  {
    assert "agents" in CORE_PARTS && "architecture" in CORE_PARTS && "development" in CORE_PARTS;
  }

  lemma ClosedIsFound(text: string)
    requires StartsWith(text, FENCE)
    ensures ParseVersion(text).Unclosed? <==> !Closed(text)
    ensures !ParseVersion(text).NoHeader?
  {
    assert FENCE == "---" && |text| >= 3;
  }

  /** A document is reported exactly as it deserves, and at most once. */
  lemma ReportedAsDeserved(disk: Disk, path: string, project: string)
    ensures forall issue :: issue in DocIssues(disk, path, project) <==> Deserves(disk, path, project, issue)
    ensures |DocIssues(disk, path, project)| <= 1
  {
    CoreNeedsHeader(path);
    if path in disk.files && StartsWith(disk.files[path], FENCE) {
      ClosedIsFound(disk.files[path]);
    }
  }

  /** Nothing is reported about a document exactly when it passes. */
  lemma NoIssueIff(disk: Disk, path: string, project: string)
    ensures DocIssues(disk, path, project) == [] <==> Passes(disk, path, project)
  {
    CoreNeedsHeader(path);
    if path in disk.files && StartsWith(disk.files[path], FENCE) {
      ClosedIsFound(disk.files[path]);
    }
  }

  lemma {:induction false} CollectMembers<A, B>(f: A -> seq<B>, xs: seq<A>, y: B)
    ensures y in Collect(f, xs) <==> exists k :: 0 <= k < |xs| && y in f(xs[k])
    decreases |xs|
  {
    if xs != [] {
      var front := xs[..|xs| - 1];
      CollectMembers(f, front, y);
      assert forall k :: 0 <= k < |front| ==> xs[k] == front[k];
      if k :| 0 <= k < |xs| && y in f(xs[k]) {
        assert k < |front| ==> y in f(front[k]);
      }
    }
  }

  /** Over all documents: an issue is reported exactly when one of them deserves it. */
  lemma AllReportedAsDeserved(disk: Disk, docs: seq<string>, project: string, issue: Issue)
    ensures issue in AllIssues(disk, docs, project) <==>
            exists k :: 0 <= k < |docs| && Deserves(disk, docs[k], project, issue)
  {
    var f := Checker(disk, project);
    CollectMembers(f, docs, issue);
    forall k | 0 <= k < |docs| ensures issue in f(docs[k]) <==> Deserves(disk, docs[k], project, issue) {
      ReportedAsDeserved(disk, docs[k], project);
    }
  }

  /** Nothing is reported exactly when all of them pass. */
  lemma NothingReportedIff(disk: Disk, docs: seq<string>, project: string)
    ensures AllIssues(disk, docs, project) == [] <==> forall k :: 0 <= k < |docs| ==> Passes(disk, docs[k], project)
  {
    var f := Checker(disk, project);
    CollectNothing(f, docs);
    forall k | 0 <= k < |docs| ensures f(docs[k]) == [] <==> Passes(disk, docs[k], project) {
      NoIssueIff(disk, docs[k], project);
    }
  }

  // ---- the loop ----

  method CheckDocument(disk: Disk, docFile: string, projectVersion: string) returns (issues: seq<Issue>)
    ensures issues == DocIssues(disk, docFile, projectVersion)
  {
    if docFile !in disk.files || docFile in disk.broken {
      return [Unreadable(docFile)];
    }
    issues := CheckText(disk.files[docFile], docFile, projectVersion);
  }

  method CheckText(content: string, docFile: string, projectVersion: string) returns (issues: seq<Issue>)
    ensures issues == TextIssues(Some(content), docFile, projectVersion)
  {
    issues := [];
    if StartsWith(content, FENCE) {
      var yamlEnd := Find(content, FENCE, 3);
      if yamlEnd > 0 {
        var found := Search(content[3..yamlEnd], 0);
        if found.Some? {
          var docVersion := Strip(found.value);
          if docVersion != projectVersion {
            issues := issues + [Outdated(docFile, docVersion, projectVersion)];
          }
        } else {
          issues := issues + [MissingVersion(docFile)];
        }
      }
    } else if IsCore(docFile) {
      issues := issues + [MissingHeader(docFile)];
    }
  }

  method CheckDocuments(disk: Disk, docs: seq<string>, projectVersion: string) returns (issues: seq<Issue>)
    ensures issues == AllIssues(disk, docs, projectVersion)
  {
    issues := [];
    for n := 0 to |docs|
      invariant issues == Collect(Checker(disk, projectVersion), docs[..n])
    {
      CollectNext(Checker(disk, projectVersion), docs, n);
      var found := CheckDocument(disk, docs[n], projectVersion);
      issues := issues + found;
    }
    assert docs[..|docs|] == docs;
  }

  /** `issues` is what documents deserve, and nothing only if all of them pass. */
  ghost predicate Justified(issues: seq<Issue>, disk: Disk, docs: seq<string>, project: string) {
    && (issues == [] <==> forall k :: 0 <= k < |docs| ==> Passes(disk, docs[k], project))
    && (forall issue :: issue in issues <==> exists k :: 0 <= k < |docs| && Deserves(disk, docs[k], project, issue))
  }

  lemma AllJustified(disk: Disk, docs: seq<string>, project: string)
    ensures Justified(AllIssues(disk, docs, project), disk, docs, project)
  {
    NothingReportedIff(disk, docs, project);
    forall issue
      ensures issue in AllIssues(disk, docs, project) <==>
              exists k :: 0 <= k < |docs| && Deserves(disk, docs[k], project, issue)
    {
      AllReportedAsDeserved(disk, docs, project, issue);
    }
  }

  /** check_version_consistency over the documents found, in the order found. */
  method CheckVersionConsistency(disk: Disk, docs: seq<string>, versionFile: Option<string>) returns (issues: seq<Issue>)
    ensures issues == if versionFile.None? then [NoVersionFile] else AllIssues(disk, docs, Strip(versionFile.value))
    ensures versionFile.Some? ==> Justified(issues, disk, docs, Strip(versionFile.value))
  {
    if versionFile.None? {
      return [NoVersionFile];
    }
    issues := CheckDocuments(disk, docs, Strip(versionFile.value));
    AllJustified(disk, docs, Strip(versionFile.value));
  }

  /** A document that just got its header passes the check of the same project version exactly
      when that version is printable. */
  lemma FreshHeaderPasses(disk: Disk, coreDocs: seq<string>, version: string, date: string, status: string, path: string)
    requires Trimmed(version) && path in coreDocs && Updatable(disk, path)
    ensures DocIssues(WithHeaders(disk, coreDocs, VersionHeader(version, date, status)), path, version) == []
            <==> Printable(version)
  {
    HeaderRoundTrip(version, date, status, disk.files[path]);
    HeaderIsClosed(version, date, status, disk.files[path]);
  }

  /** A document is in order after the update: it got a header with a printable version, or it was not
      touched and passes the check as it is. */
  predicate InOrder(disk: Disk, coreDocs: seq<string>, version: string, path: string) {
    if path in coreDocs && Updatable(disk, path) then Printable(version) else Passes(disk, path, version)
  }

  lemma OneDocument(disk: Disk, coreDocs: seq<string>, version: string, date: string, status: string, path: string)
    requires Trimmed(version)
    ensures DocIssues(WithHeaders(disk, coreDocs, VersionHeader(version, date, status)), path, version) == []
            <==> InOrder(disk, coreDocs, version, path)
  {
    if path in coreDocs && Updatable(disk, path) {
      FreshHeaderPasses(disk, coreDocs, version, date, status, path);
    } else {
      UntouchedText(disk, coreDocs, VersionHeader(version, date, status), path);
      NoIssueIff(disk, path, version);
    }
  }

  lemma UntouchedText(disk: Disk, coreDocs: seq<string>, header: string, path: string)
    requires path !in coreDocs || !Updatable(disk, path)
    ensures DocText(WithHeaders(disk, coreDocs, header), path) == DocText(disk, path)
  {
  }

  /** Updating the core documents, then checking any documents against the same version, printable or not:
      no issue is left exactly when each of them is in order. */
  lemma UpdateThenCheck(disk: Disk, coreDocs: seq<string>, docs: seq<string>,
                        version: string, date: string, status: string)
    requires Trimmed(version)
    ensures AllIssues(WithHeaders(disk, coreDocs, VersionHeader(version, date, status)), docs, version) == []
            <==> forall k :: 0 <= k < |docs| ==> InOrder(disk, coreDocs, version, docs[k])
  {
    var after := WithHeaders(disk, coreDocs, VersionHeader(version, date, status));
    CollectNothing(Checker(after, version), docs);
    forall k | 0 <= k < |docs|
      ensures Checker(after, version)(docs[k]) == [] <==> InOrder(disk, coreDocs, version, docs[k])
    {
      OneDocument(disk, coreDocs, version, date, status, docs[k]);
    }
  }
}
