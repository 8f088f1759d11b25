/** Session discovery by priority: the first path claiming an identifier decides it (fomalhaut-session, discovery.rs). */
module Discovery {
  import opened Prelude

  datatype Kind = X11 | Wayland

  datatype SessionId = SessionId(kind: Kind, stem: string)

  datatype Reason =
    | InvalidFileName
    | Duplicate
    | InvalidDesktopEntry
    | MissingDesktopEntryGroup
    | InvalidBoolean
    | Hidden
    | NoDisplay
    | UnsupportedType
    | MissingName
    | MissingExec
    | InvalidExec
    | TryExecUnavailable
    | InvalidEnvironment

  datatype Entry = Entry(id: SessionId, name: string, command: seq<string>)

  datatype Loaded = Fine(entry: Entry) | Bad(reason: Reason)

  /** A desktop file: its path, its stem if that is UTF-8, and what loading it would yield. */
  datatype File = File(path: string, stem: Option<string>, loaded: Loaded)

  /** A configured directory: missing, unreadable, or its desktop files in order. */
  datatype Directory = Directory(kind: Kind, listing: Listing)

  datatype Listing = Missing | Unreadable | Files(files: seq<File>)

  datatype Rejection = Rejection(path: string, id: Option<SessionId>, reason: Reason)

  datatype Report = Report(entries: map<SessionId, Entry>, seen: set<SessionId>, rejections: seq<Rejection>)

  /** A file together with the identifier it claims. */
  datatype Claim = Claim(path: string, id: Option<SessionId>, loaded: Loaded)

  const EMPTY_REPORT := Report(map[], {}, [])

  function ClaimOf(kind: Kind, file: File): Claim {
    Claim(file.path, if file.stem.None? then None else Some(SessionId(kind, file.stem.value)), file.loaded)
  }

  /** What one more file does to the report. */
  function Consider(r: Report, claim: Claim): Report {
    match claim.id
    case None => r.(rejections := r.rejections + [Rejection(claim.path, None, InvalidFileName)])
    case Some(id) =>
      if id in r.seen then
        r.(rejections := r.rejections + [Rejection(claim.path, Some(id), Duplicate)])
      else
        match claim.loaded
        case Fine(entry) => r.(seen := r.seen + {id}, entries := r.entries[id := entry])
        case Bad(reason) => r.(seen := r.seen + {id}, rejections := r.rejections + [Rejection(claim.path, Some(id), reason)])
  }

  function ConsiderAll(claims: seq<Claim>): Report {
    if claims == [] then EMPTY_REPORT
    else Consider(ConsiderAll(claims[..|claims| - 1]), claims[|claims| - 1])
  }

  function ClaimsIn(directory: Directory): seq<Claim> {
    match directory.listing
    case Files(files) => seq(|files|, i requires 0 <= i < |files| => ClaimOf(directory.kind, files[i]))
    case _ => []
  }

  /** All claims in priority order. */
  function Scan(directories: seq<Directory>): seq<Claim> {
    if directories == [] then [] else Scan(directories[..|directories| - 1]) + ClaimsIn(directories[|directories| - 1])
  }

  predicate Readable(directories: seq<Directory>) {
    forall i :: 0 <= i < |directories| ==> !directories[i].listing.Unreadable?
  }

  // ---------------------------------------------------------------------------
  // First claims

  ghost predicate Claimed(claims: seq<Claim>, id: SessionId) {
    exists i :: 0 <= i < |claims| && claims[i].id == Some(id)
  }

  /** The i-th claim is the first one of its identifier. */
  ghost predicate Decides(claims: seq<Claim>, i: nat) {
    i < |claims| && claims[i].id.Some? && !Claimed(claims[..i], claims[i].id.value)
  }

  /** Why the i-th claim does not appear in the catalog, if it does not. */
  ghost function RejectionOf(claims: seq<Claim>, i: nat): Option<Rejection>
    requires i < |claims|
  {
    var claim := claims[i];
    if claim.id.None? then Some(Rejection(claim.path, None, InvalidFileName))
    else if !Decides(claims, i) then Some(Rejection(claim.path, claim.id, Duplicate))
    else
      match claim.loaded
      case Fine(_) => None
      case Bad(reason) => Some(Rejection(claim.path, claim.id, reason))
  }

  /** The rejections of all claims, in order. */
  ghost function Rejections(claims: seq<Claim>): seq<Rejection> {
    if claims == [] then []
    else
      var before := Rejections(claims[..|claims| - 1]);
      match RejectionOf(claims, |claims| - 1)
      case None => before
      case Some(rejection) => before + [rejection]
  }

  lemma {:induction false} SeenAreClaimed(claims: seq<Claim>)
    ensures forall id :: id in ConsiderAll(claims).seen <==> Claimed(claims, id)
    decreases |claims|
  {
    if claims != [] {
      var n := |claims| - 1;
      SeenAreClaimed(claims[..n]);
      forall id ensures id in ConsiderAll(claims).seen <==> Claimed(claims, id) {
        ClaimedSplits(claims, id);
      }
    }
  }

  lemma ClaimedSplits(claims: seq<Claim>, id: SessionId)
    requires claims != []
    ensures Claimed(claims, id) <==> Claimed(claims[..|claims| - 1], id) || claims[|claims| - 1].id == Some(id)
  {
    var n := |claims| - 1;
    if Claimed(claims, id) {
      var i :| 0 <= i < |claims| && claims[i].id == Some(id);
      assert i < n ==> claims[..n][i].id == Some(id);
    }
    if Claimed(claims[..n], id) {
      var i :| 0 <= i < n && claims[..n][i].id == Some(id);
      assert claims[i].id == Some(id);
    }
  }

  lemma {:induction false} CatalogIsSeen(claims: seq<Claim>)
    ensures ConsiderAll(claims).entries.Keys <= ConsiderAll(claims).seen
    decreases |claims|
  {
    if claims != [] {
      CatalogIsSeen(claims[..|claims| - 1]);
    }
  }

  /** Every scanned path ends in exactly one of catalog and rejections. */
  lemma {:induction false} EveryClaimIsCounted(claims: seq<Claim>)
    ensures |ConsiderAll(claims).entries| + |ConsiderAll(claims).rejections| == |claims|
    decreases |claims|
  {
    if claims != [] {
      EveryClaimIsCounted(claims[..|claims| - 1]);
      CatalogIsSeen(claims[..|claims| - 1]);
    }
  }

  /** The rejections are, in scan order, those of the paths that do not decide a loadable identifier. */
  lemma {:induction false} RejectionsHaveReasons(claims: seq<Claim>)
    ensures ConsiderAll(claims).rejections == Rejections(claims)
    decreases |claims|
  {
    if claims != [] {
      RejectionsHaveReasons(claims[..|claims| - 1]);
      SeenAreClaimed(claims[..|claims| - 1]);
    }
  }

  /**
   * The first path claiming an identifier decides it, whatever later paths hold: the catalog has the
   * identifier exactly if that path loads, and then with what it loads.
   */
  lemma {:induction false} FirstClaimDecides(claims: seq<Claim>, i: nat)
    requires Decides(claims, i)
    ensures var r, id := ConsiderAll(claims), claims[i].id.value;
      && (id in r.entries <==> claims[i].loaded.Fine?)
      && (claims[i].loaded.Fine? ==> r.entries[id] == claims[i].loaded.entry)
    decreases |claims|
  {
    var n := |claims| - 1;
    SeenAreClaimed(claims[..n]);
    CatalogIsSeen(claims[..n]);
    if i < n {
      assert claims[..n][..i] == claims[..i];
      FirstClaimDecides(claims[..n], i);
      assert claims[..n][i].id == claims[i].id;
    }
  }

  /** Every identifier of the catalog was claimed, so some first path decides it. */
  lemma {:induction false} CatalogIsDecided(claims: seq<Claim>, id: SessionId) returns (i: nat)
    requires id in ConsiderAll(claims).entries
    ensures Decides(claims, i) && claims[i].id == Some(id) && claims[i].loaded.Fine?
    decreases |claims|
  {
    var n := |claims| - 1;
    SeenAreClaimed(claims[..n]);
    if id in ConsiderAll(claims[..n]).entries {
      i := CatalogIsDecided(claims[..n], id);
      assert claims[..n][..i] == claims[..i];
    } else {
      i := n;
    }
  }

  // ---------------------------------------------------------------------------
  // The loops

  method ConsiderFile(kind: Kind, file: File, entries: map<SessionId, Entry>, seen: set<SessionId>, rejections: seq<Rejection>)
    returns (entries': map<SessionId, Entry>, seen': set<SessionId>, rejections': seq<Rejection>)
    ensures Report(entries', seen', rejections') == Consider(Report(entries, seen, rejections), ClaimOf(kind, file))
  {
    entries', seen', rejections' := entries, seen, rejections;
    if file.stem.None? {
      rejections' := rejections + [Rejection(file.path, None, InvalidFileName)];
      return;
    }
    var id := SessionId(kind, file.stem.value);
    if id in seen {
      rejections' := rejections + [Rejection(file.path, Some(id), Duplicate)];
      return;
    }
    seen' := seen + {id};
    match file.loaded
    case Fine(entry) => entries' := entries[id := entry];
    case Bad(reason) => rejections' := rejections + [Rejection(file.path, Some(id), reason)];
  }

  lemma ConsiderNext(earlier: seq<Claim>, directory: Directory, f: nat)
    requires f < |ClaimsIn(directory)|
    ensures ConsiderAll(earlier + ClaimsIn(directory)[..f + 1]) ==
            Consider(ConsiderAll(earlier + ClaimsIn(directory)[..f]), ClaimsIn(directory)[f])
  {
    var claims := earlier + ClaimsIn(directory)[..f + 1];
    assert claims[..|claims| - 1] == earlier + ClaimsIn(directory)[..f];
  }

  method ConsiderDirectory(
    directory: Directory, entries: map<SessionId, Entry>, seen: set<SessionId>, rejections: seq<Rejection>,
    ghost earlier: seq<Claim>)
    returns (entries': map<SessionId, Entry>, seen': set<SessionId>, rejections': seq<Rejection>)
    requires Report(entries, seen, rejections) == ConsiderAll(earlier)
    ensures Report(entries', seen', rejections') == ConsiderAll(earlier + ClaimsIn(directory))
  {
    entries', seen', rejections' := entries, seen, rejections;
    var files := if directory.listing.Files? then directory.listing.files else [];
    assert earlier + ClaimsIn(directory)[..0] == earlier;
    for f := 0 to |files|
      invariant Report(entries', seen', rejections') == ConsiderAll(earlier + ClaimsIn(directory)[..f])
    {
      ConsiderNext(earlier, directory, f);
      entries', seen', rejections' := ConsiderFile(directory.kind, files[f], entries', seen', rejections');
    }
    assert ClaimsIn(directory)[..|files|] == ClaimsIn(directory);
  }

  lemma ScanNext(directories: seq<Directory>, d: nat)
    requires d < |directories|
    ensures Scan(directories[..d + 1]) == Scan(directories[..d]) + ClaimsIn(directories[d])
    ensures Readable(directories[..d + 1]) <==> Readable(directories[..d]) && !directories[d].listing.Unreadable?
  {
    assert directories[..d + 1][..d] == directories[..d];
    assert directories[..d + 1] == directories[..d] + [directories[d]];
  }

  method Discover(directories: seq<Directory>)
    returns (entries: map<SessionId, Entry>, rejections: seq<Rejection>, ok: bool)
    ensures ok <==> Readable(directories)
    ensures ok ==> var report := ConsiderAll(Scan(directories));
                   entries == report.entries && rejections == report.rejections
  {
    entries, rejections, ok := map[], [], true;
    var seen: set<SessionId> := {};
    for d := 0 to |directories|
      invariant ok && Readable(directories[..d])
      invariant Report(entries, seen, rejections) == ConsiderAll(Scan(directories[..d]))
    {
      ScanNext(directories, d);
      if directories[d].listing.Unreadable? {
        return entries, rejections, false;
      }
      entries, seen, rejections := ConsiderDirectory(directories[d], entries, seen, rejections, Scan(directories[..d]));
    }
    assert directories[..|directories|] == directories;
  }
}
