/**
 * The dashboard page: the displayed user name, the recent-files list with
 * its search filter, the id handed to the chart page, and the list and
 * counter update after a file is deleted.  The recent-files list itself is
 * what the server's recent-files endpoint returns.
 */
module Dashboard {
  import opened Wrappers
  import opened Strings
  import opened Js
  import opened Seqs

  /** A file of the recent-files list; `_id` comes from the server, `id` may come from older replies. */
  datatype FileEntry = FileEntry(mongoId: Option<string>, id: Option<string>, name: string)

  /** The name fields of a decoded token payload. */
  datatype NamePayload = NamePayload(userName: Option<string>, name: Option<string>)

  // ---------------------------------------------------------------------
  // The server side: the newest five files

  const RecentLimit := 5

  /** `find(...).sort({ uploadedAt: -1 }).limit(5)` on the user's files, given newest first. */
  function RecentFiles(newestFirst: seq<FileEntry>): (r: seq<FileEntry>)
    ensures r <= newestFirst
    ensures |r| == if |newestFirst| < RecentLimit then |newestFirst| else RecentLimit
  {
    if |newestFirst| <= RecentLimit then newestFirst else newestFirst[..RecentLimit]
  }

  // ---------------------------------------------------------------------
  // Pure parts of the page

  /**
   * The name shown in the header: the stored name, unless it is missing,
   * empty or the text "undefined"; then the payload's `userName`, its
   * `name`, or "User"; a payload that cannot be decoded gives "User".
   */
  function ResolveUserName(stored: Option<string>, payload: Option<NamePayload>): (n: string)
    ensures Truthy(stored) && stored.value != "undefined" ==> n == stored.value
    ensures !(Truthy(stored) && stored.value != "undefined") && payload.None? ==> n == "User"
    ensures !(Truthy(stored) && stored.value != "undefined") && payload.Some? ==>
      n == (if Truthy(payload.value.userName) then payload.value.userName.value
            else if Truthy(payload.value.name) then payload.value.name.value
            else "User")
    ensures n != ""
  {
    if !Truthy(stored) || stored.value == "undefined" then
      match payload
      case None => "User"
      case Some(p) => OrElse(Or(p.userName, p.name), "User")
    else stored.value
  }

  /** The text "undefined" in storage is treated like no name at all. */
  lemma UndefinedNameIsMissing(payload: Option<NamePayload>)
    ensures ResolveUserName(Some("undefined"), payload) == ResolveUserName(None, payload)
  {
  }

  /** `file._id || file.id || null`: the first non-empty id, or none. */
  function AnalyzeFileId(f: FileEntry): (r: Option<string>)
    ensures r.Some? ==> r.value != "" && (r == f.mongoId || r == f.id)
    ensures r.None? <==> !Truthy(f.mongoId) && !Truthy(f.id)
    ensures Truthy(f.mongoId) ==> r == f.mongoId
  {
    var k := Or(f.mongoId, f.id);
    if Truthy(k) then k else None
  }

  /** Whether a file's name contains the search term, ignoring case. */
  function NameMatches(term: string): FileEntry -> bool {
    (f: FileEntry) => Contains(ToLower(f.name), ToLower(term))
  }

  /** `recentFiles.filter(file => file.name.toLowerCase().includes(searchTerm.toLowerCase()))`. */
  function FilteredFiles(files: seq<FileEntry>, term: string): (r: seq<FileEntry>)
    ensures forall f :: f in r <==> f in files && Contains(ToLower(f.name), ToLower(term))
    ensures |r| <= |files|
  {
    FilterMembers(files, NameMatches(term));
    Filter(files, NameMatches(term))
  }

  /** The filtered list keeps, in order, exactly the files whose lower-cased name contains the
      lower-cased term, each with all its copies. */
  lemma FilteredFilesExact(files: seq<FileEntry>, term: string, f: FileEntry)
    ensures f in FilteredFiles(files, term) <==> f in files && Contains(ToLower(f.name), ToLower(term))
    ensures multiset(FilteredFiles(files, term))[f] ==
      if Contains(ToLower(f.name), ToLower(term)) then multiset(files)[f] else 0
    ensures IsSubseq(FilteredFiles(files, term), files)
  {
    FilterMultiset(files, NameMatches(term), f);
    FilterIsSubseq(files, NameMatches(term));
  }

  /** An empty search term keeps every file. */
  lemma EmptyTermKeepsAll(files: seq<FileEntry>)
    ensures FilteredFiles(files, "") == files
  {
    forall i | 0 <= i < |files| ensures NameMatches("")(files[i]) {
      ContainsEmpty(ToLower(files[i].name));
    }
    FilterAll(files, NameMatches(""));
  }

  /** The search ignores case: terms that lower-case alike select the same files. */
  lemma FilterIgnoresTermCase(files: seq<FileEntry>, term: string, term': string)
    requires ToLower(term) == ToLower(term')
    ensures FilteredFiles(files, term) == FilteredFiles(files, term')
  {
    assert NameMatches(term) == NameMatches(term');
  }

  /** The key a listed file is compared by on delete: `f._id || f.id`. */
  function Key(f: FileEntry): Option<string> {
    Or(f.mongoId, f.id)
  }

  /** The filter predicate of `confirmDelete`. */
  function KeyDiffers(target: Option<string>): FileEntry -> bool {
    (f: FileEntry) => Key(f) != target
  }

  /** `prev.filter(f => (f._id || f.id) !== fileToDelete._id)`. */
  function AfterDelete(files: seq<FileEntry>, target: Option<string>): (r: seq<FileEntry>)
    ensures forall f :: f in r <==> f in files && Key(f) != target
    ensures |r| <= |files|
  {
    FilterMembers(files, KeyDiffers(target));
    Filter(files, KeyDiffers(target))
  }

  /** `Math.max(prev - 1, 0)`. */
  function Decrement(count: int): (r: int)
    ensures r >= 0
    ensures count >= 1 ==> r == count - 1
    ensures count <= 1 ==> r == 0
  {
    if count - 1 > 0 then count - 1 else 0
  }

  /** A delete removes exactly the files whose key is the deleted id, keeping the rest in order. */
  lemma AfterDeleteExact(files: seq<FileEntry>, target: Option<string>, f: FileEntry)
    ensures f in AfterDelete(files, target) <==> f in files && Key(f) != target
    ensures multiset(AfterDelete(files, target))[f] == if Key(f) != target then multiset(files)[f] else 0
    ensures IsSubseq(AfterDelete(files, target), files)
  {
    FilterMultiset(files, KeyDiffers(target), f);
    FilterIsSubseq(files, KeyDiffers(target));
  }

  /** When exactly one listed file has the deleted id, the list loses just that file, so its
      length drops by one as the counter does. */
  lemma AfterDeleteOne(files: seq<FileEntry>, target: Option<string>, k: int)
    requires 0 <= k < |files| && Key(files[k]) == target
    requires forall i :: 0 <= i < |files| && i != k ==> Key(files[i]) != target
    ensures AfterDelete(files, target) == files[..k] + files[k + 1..]
    ensures |AfterDelete(files, target)| == Decrement(|files|)
  {
    FilterRemovesOne(files, KeyDiffers(target), k);
  }

  /** A delete whose id matches no listed file keeps the list. */
  lemma AfterDeleteNone(files: seq<FileEntry>, target: Option<string>)
    requires forall i :: 0 <= i < |files| ==> Key(files[i]) != target
    ensures AfterDelete(files, target) == files
  {
    FilterAll(files, KeyDiffers(target));
  }

  /** Exactly one listed file has the key `target`. */
  ghost predicate KeyedOnce(files: seq<FileEntry>, target: Option<string>) {
    exists k :: 0 <= k < |files| && Key(files[k]) == target &&
      forall i :: 0 <= i < |files| && i != k ==> Key(files[i]) != target
  }

  /** When two listed files share the deleted key, both go but the counter drops by one only. */
  lemma SharedKeyDrifts()
    ensures var f := FileEntry(Some("a"), None, "sales.xlsx");
      AfterDelete([f, f], Some("a")) == [] && Decrement(|[f, f]|) == 1
  {
    var f := FileEntry(Some("a"), None, "sales.xlsx");
    assert Key(f) == Some("a");
    assert [f, f][1..] == [f];
  }

  // ---------------------------------------------------------------------
  // The page state

  /** What the two dashboard requests return: the files and the charts count. */
  datatype Stats = Stats(files: Option<seq<FileEntry>>, chartsCreated: Option<int>)

  /** The list, the counters and the pending delete of the page. */
  class DashboardState {
    var recentFiles: seq<FileEntry>
    var filesUploaded: int
    var chartsCreated: int
    var fileToDelete: Option<FileEntry>

    /** "Files Uploaded" shows the length of the list. */
    ghost predicate Counted()
      reads this
    {
      filesUploaded == |recentFiles|
    }

    constructor ()
      ensures recentFiles == [] && filesUploaded == 0 && chartsCreated == 0 && fileToDelete == None
      ensures Counted()
    {
      recentFiles, filesUploaded, chartsCreated, fileToDelete := [], 0, 0, None;
    }

    /**
     * `fetchDashboardData`: `reply` is None when a request fails, and then
     * nothing changes; otherwise the list is `files || []`, the counter its
     * length and the charts count `chartsCreated || 0`.
     */
    method Load(reply: Option<Stats>)
      modifies this`recentFiles, this`filesUploaded, this`chartsCreated
      ensures reply.None? ==>
        recentFiles == old(recentFiles) && filesUploaded == old(filesUploaded) && chartsCreated == old(chartsCreated)
      ensures reply.Some? ==>
        recentFiles == reply.value.files.GetOr([]) && filesUploaded == |recentFiles| &&
        chartsCreated == reply.value.chartsCreated.GetOr(0)
      ensures reply.Some? || old(Counted()) ==> Counted()
    {
      if reply.Some? {
        recentFiles := reply.value.files.GetOr([]);
        filesUploaded := |recentFiles|;
        chartsCreated := reply.value.chartsCreated.GetOr(0);
      }
    }

    /** `handleDelete(file)`: remember which file the dialog is about. */
    method AskDelete(f: FileEntry)
      modifies this`fileToDelete
      ensures fileToDelete == Some(f)
    {
      fileToDelete := Some(f);
    }

    /**
     * `confirmDelete`: `ok` is whether the DELETE request succeeded.  With
     * no pending file nothing happens; on success the files keyed by the
     * pending `_id` go and the counter drops by one, not below 0; the
     * pending file is cleared either way.
     */
    method ConfirmDelete(ok: bool)
      modifies this`recentFiles, this`filesUploaded, this`fileToDelete
      ensures old(fileToDelete).None? ==>
        recentFiles == old(recentFiles) && filesUploaded == old(filesUploaded) && fileToDelete == None
      ensures old(fileToDelete).Some? && ok ==>
        recentFiles == AfterDelete(old(recentFiles), old(fileToDelete).value.mongoId) &&
        filesUploaded == Decrement(old(filesUploaded))
      ensures old(fileToDelete).Some? && !ok ==>
        recentFiles == old(recentFiles) && filesUploaded == old(filesUploaded)
      ensures fileToDelete == None
      ensures old(Counted()) ==>
        (old(fileToDelete).None? || !ok || KeyedOnce(old(recentFiles), old(fileToDelete).value.mongoId)) ==> Counted()
    {
      if fileToDelete.None? {
        return;
      }
      if ok {
        if Counted() && KeyedOnce(recentFiles, fileToDelete.value.mongoId) {
          var k :| 0 <= k < |recentFiles| && Key(recentFiles[k]) == fileToDelete.value.mongoId &&
            forall i :: 0 <= i < |recentFiles| && i != k ==> Key(recentFiles[i]) != fileToDelete.value.mongoId;
          AfterDeleteOne(recentFiles, fileToDelete.value.mongoId, k);
        }
        recentFiles := AfterDelete(recentFiles, fileToDelete.value.mongoId);
        filesUploaded := Decrement(filesUploaded);
      }
      fileToDelete := None;
    }
  }
}
