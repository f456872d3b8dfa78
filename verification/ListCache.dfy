/** Downloading the rule list through a cache on disk or, once the disk fails, in memory
    (`GfwlistCache` of `src/routing_rules.rs`).

    Every body and every timestamp a server sent carries the URL it came from, which the source does
    not record; nothing below looks at it but the statements about where things came from. */
module ListCache {
  import opened Wrappers
  import opened Clock

  datatype Body = Body(bytes: seq<bv8>, url: string)

  /** A server's `Last-Modified`, in nanoseconds from the Unix epoch. */
  datatype Timestamp = Timestamp(time: int, url: string)

  /** The cache file; `recorded` is the timestamp that was set on it, if any was. */
  datatype File = File(body: Body, modified: int, recorded: Option<Timestamp>)

  datatype Cache = Disk | Memory(body: Option<Body>, modified: Option<Timestamp>)

  datatype Head = HeadFailed | HeadOk(modified: Option<int>)

  /** A GET: no answer or an error status, a body that breaks off, or a body. */
  datatype Get = GetFailed | GetBroken | GetOk(bytes: seq<bv8>, modified: Option<int>)

  /** What the file system does during one load. */
  datatype Fs = Fs(metadataFails: bool, readFails: bool, dirFails: bool, write: FileWrite, timesFail: bool, now: int)

  /** A failed write may leave the file as it was, or cut short. */
  datatype FileWrite = Written | NotWritten(left: Option<File>)

  /** The answers to one load's requests, by the position of the URL. */
  datatype Web = Web(urls: seq<string>, heads: seq<Head>, gets: seq<Get>)

  predicate WellFormed(web: Web) {
    |web.heads| == |web.urls| && |web.gets| == |web.urls|
  }

  /** `duration_since(UNIX_EPOCH).ok().map(truncate_to_second)`. */
  function Seconds(time: int): Option<nat> {
    if time < 0 then None else Some(time / SECOND)
  }

  predicate SameSecond(a: int, b: int) {
    Seconds(a) == Seconds(b)
  }

  function Stamp(modified: Option<int>, url: string): Option<Timestamp> {
    if modified.Some? then Some(Timestamp(modified.value, url)) else None
  }

  // ---- The specification of a load ----

  /** The first URL whose HEAD succeeds, if any does. */
  predicate IsFirstHead(web: Web, i: nat) {
    && WellFormed(web) && i <= |web.urls|
    && (forall j | 0 <= j < i :: web.heads[j].HeadFailed?)
    && (i < |web.urls| ==> web.heads[i].HeadOk?)
  }

  /** The first URL whose GET is not refused, if there is one. */
  predicate IsFirstGet(web: Web, i: nat) {
    && WellFormed(web) && i <= |web.urls|
    && (forall j | 0 <= j < i :: web.gets[j].GetFailed?)
    && (i < |web.urls| ==> !web.gets[i].GetFailed?)
  }

  function HeadFrom(web: Web, k: nat): (i: nat)
    requires WellFormed(web) && k <= |web.urls| && forall j | 0 <= j < k :: web.heads[j].HeadFailed?
    ensures IsFirstHead(web, i)
    decreases |web.urls| - k
  {
    if k == |web.urls| || web.heads[k].HeadOk? then k else HeadFrom(web, k + 1)
  }

  function GetFrom(web: Web, k: nat): (i: nat)
    requires WellFormed(web) && k <= |web.urls| && forall j | 0 <= j < k :: web.gets[j].GetFailed?
    ensures IsFirstGet(web, i)
    decreases |web.urls| - k
  {
    if k == |web.urls| || !web.gets[k].GetFailed? then k else GetFrom(web, k + 1)
  }

  function FirstHead(web: Web): (i: nat)
    requires WellFormed(web)
    ensures IsFirstHead(web, i)
  {
    HeadFrom(web, 0)
  }

  function FirstGet(web: Web): (i: nat)
    requires WellFormed(web)
    ensures IsFirstGet(web, i)
  {
    GetFrom(web, 0)
  }

  datatype Lookup = Hit(body: Body) | Miss | Error

  function DiskLookup(file: Option<File>, remote: Option<Timestamp>, fs: Fs): Lookup {
    if remote.None? then Miss
    else if fs.metadataFails then Error
    else if file.None? || !SameSecond(file.value.modified, remote.value.time) then Miss
    else if fs.readFails then Error
    else Hit(file.value.body)
  }

  function MemoryLookup(cache: Cache, remote: Option<Timestamp>): Option<Body> {
    if cache.Memory? && remote.Some? && cache.modified.Some? && SameSecond(cache.modified.value.time, remote.value.time)
    then cache.body else None
  }

  /** `write_gfwlist_cache`: the file it leaves and whether it succeeds. */
  function WriteCache(file: Option<File>, body: Body, stamp: Option<Timestamp>, fs: Fs): (Option<File>, bool) {
    if fs.dirFails then (file, false)
    else if fs.write.NotWritten? then (fs.write.left, false)
    else if stamp.None? then (Some(File(body, fs.now, None)), true)
    else if fs.timesFail then (Some(File(body, fs.now, None)), false)
    else (Some(File(body, stamp.value.time, stamp)), true)
  }

  /** What a load returns, whether it downloaded, and what it leaves. */
  datatype Loaded = Loaded(result: Result<(Body, string)>, downloaded: bool, cache: Cache, file: Option<File>)

  const EMPTY := Memory(None, None)

  function Effective(downloaded: Option<Timestamp>, remote: Option<Timestamp>, getUrl: string, headUrl: string)
    : Option<Timestamp>
  {
    if downloaded.Some? then downloaded else if getUrl == headUrl then remote else None
  }

  function Store(cache: Cache, file: Option<File>, body: Body, stamp: Option<Timestamp>, fs: Fs)
    : (Cache, Option<File>)
  {
    if cache.Memory? then (Memory(Some(body), stamp), file)
    else
      var (file', ok) := WriteCache(file, body, stamp, fs);
      (if ok then Disk else Memory(Some(body), stamp), file')
  }

  function Download(cache: Cache, file: Option<File>, remote: Option<Timestamp>, headUrl: string, web: Web,
                    fs: Fs): Loaded
    requires WellFormed(web)
  {
    var get := FirstGet(web);
    if get == |web.urls| || web.gets[get].GetBroken? then
      Loaded(Err, false, cache, file)
    else
      var url := web.urls[get];
      var body := Body(web.gets[get].bytes, url);
      var stamp := Effective(Stamp(web.gets[get].modified, url), remote, url, headUrl);
      var (cache', file') := Store(cache, file, body, stamp, fs);
      Loaded(Ok((body, url)), true, cache', file')
  }

  /** `load_gfwlist_body`. */
  function Load(cache: Cache, file: Option<File>, web: Web, fs: Fs): Loaded
    requires WellFormed(web)
  {
    var head := FirstHead(web);
    if head == |web.urls| then
      Loaded(Err, false, cache, file)
    else
      var url := web.urls[head];
      var remote := Stamp(web.heads[head].modified, url);
      var onDisk := if cache.Disk? then DiskLookup(file, remote, fs) else Miss;
      if onDisk.Hit? then
        Loaded(Ok((onDisk.body, url)), false, cache, file)
      else
        var cache' := if onDisk.Error? then EMPTY else cache;
        match MemoryLookup(cache', remote)
        case Some(body) => Loaded(Ok((body, url)), false, cache', file)
        case None => Download(cache', file, remote, url, web, fs)
  }

  // ---- The cache object ----

  class FileSystem {
    var file: Option<File>

    constructor (file: Option<File>)
      ensures this.file == file
    {
      this.file := file;
    }

    /** `write_gfwlist_cache`. */
    method Write(body: Body, stamp: Option<Timestamp>, fs: Fs) returns (ok: bool)
      modifies this
      ensures (file, ok) == WriteCache(old(file), body, stamp, fs)
    {
      if fs.dirFails {
        return false;
      }
      if fs.write.NotWritten? {
        file := fs.write.left;
        return false;
      }
      file := Some(File(body, fs.now, None));
      if stamp.Some? {
        if fs.timesFail {
          return false;
        }
        file := Some(file.value.(modified := stamp.value.time, recorded := stamp));
      }
      ok := true;
    }
  }

  /** What the HEADs come to. */
  function HeadResult(web: Web): Result<(Option<Timestamp>, string)>
    requires WellFormed(web)
  {
    var i := FirstHead(web);
    if i < |web.urls| then Ok((Stamp(web.heads[i].modified, web.urls[i]), web.urls[i])) else Err
  }

  /** What the GETs come to; a body that breaks off is an error at once. */
  function GetResult(web: Web): Result<(Body, Option<Timestamp>)>
    requires WellFormed(web)
  {
    var i := FirstGet(web);
    if i < |web.urls| && web.gets[i].GetOk? then
      Ok((Body(web.gets[i].bytes, web.urls[i]), Stamp(web.gets[i].modified, web.urls[i])))
    else
      Err
  }

  lemma FirstsAreUnique(web: Web, i: nat)
    requires WellFormed(web)
    ensures IsFirstHead(web, i) ==> i == FirstHead(web)
    ensures IsFirstGet(web, i) ==> i == FirstGet(web)
  {
  }

  method FetchRemoteLastModified(web: Web) returns (remote: Result<(Option<Timestamp>, string)>)
    requires WellFormed(web)
    ensures remote == HeadResult(web)
  {
    for i := 0 to |web.urls|
      invariant forall j | 0 <= j < i :: web.heads[j].HeadFailed?
    {
      FirstsAreUnique(web, i);
      match web.heads[i] {
        case HeadOk(modified) =>
          return Ok((Stamp(modified, web.urls[i]), web.urls[i]));
        case HeadFailed =>
      }
    }
    FirstsAreUnique(web, |web.urls|);
    return Err;
  }

  method DownloadBody(web: Web) returns (download: Result<(Body, Option<Timestamp>)>)
    requires WellFormed(web)
    ensures download == GetResult(web)
  {
    for i := 0 to |web.urls|
      invariant forall j | 0 <= j < i :: web.gets[j].GetFailed?
    {
      FirstsAreUnique(web, i);
      match web.gets[i] {
        case GetOk(bytes, modified) =>
          return Ok((Body(bytes, web.urls[i]), Stamp(modified, web.urls[i])));
        case GetBroken =>
          return Err;
        case GetFailed =>
      }
    }
    FirstsAreUnique(web, |web.urls|);
    return Err;
  }

  class GfwlistCache {
    var cache: Cache
    const disk: FileSystem

    /** Whether the disk cache can be used at all is found out once, at the start. */
    constructor (disk: FileSystem, accessible: bool)
      ensures this.disk == disk && cache == if accessible then Disk else EMPTY
    {
      this.disk := disk;
      cache := if accessible then Disk else EMPTY;
    }

    method LoadBody(web: Web, fs: Fs) returns (result: Result<(Body, string)>)
      requires WellFormed(web)
      modifies this, disk
      ensures var loaded := Load(old(cache), old(disk.file), web, fs);
              result == loaded.result && cache == loaded.cache && disk.file == loaded.file
    {
      var found := FetchRemoteLastModified(web);
      if found.Err? {
        return Err;
      }
      var (remote, headUrl) := found.value;
      if cache.Disk? {
        var onDisk := DiskLookup(disk.file, remote, fs);
        match onDisk {
          case Hit(body) =>
            return Ok((body, headUrl));
          case Error =>
            cache := EMPTY;
          case Miss =>
        }
      }
      var cached := MemoryLookup(cache, remote);
      if cached.Some? {
        return Ok((cached.value, headUrl));
      }
      var download := DownloadBody(web);
      if download.Err? {
        return Err;
      }
      var (body, downloaded) := download.value;
      var stamp := Effective(downloaded, remote, body.url, headUrl);
      if cache.Disk? {
        var written := disk.Write(body, stamp, fs);
        if !written {
          cache := EMPTY;
        }
      }
      if cache.Memory? {
        cache := Memory(Some(body), stamp);
      }
      result := Ok((body, body.url));
    }
  }

  // ---- What a load keeps ----

  /** A timestamp that was recorded for a body came from the URL of the body. */
  predicate FileOk(file: Option<File>) {
    file.Some? && file.value.recorded.Some? ==>
      file.value.recorded.value == Timestamp(file.value.modified, file.value.body.url)
  }

  predicate CacheOk(cache: Cache) {
    cache.Memory? && cache.modified.Some? ==> cache.body.Some? && cache.modified.value.url == cache.body.value.url
  }

  /** A write that fails may leave the old file or a part of the new one, but nothing recorded that is
      not the body's. */
  predicate FsOk(fs: Fs) {
    fs.write.NotWritten? ==> FileOk(fs.write.left)
  }

  lemma RecordedFromTheSameUrl(cache: Cache, file: Option<File>, web: Web, fs: Fs)
    requires WellFormed(web)
    requires CacheOk(cache) && FileOk(file) && FsOk(fs)
    ensures CacheOk(Load(cache, file, web, fs).cache) && FileOk(Load(cache, file, web, fs).file)
  {
  }

  /** What a successful load returns is what the cache in use then holds. */
  lemma SuccessIsCached(cache: Cache, file: Option<File>, web: Web, fs: Fs)
    requires WellFormed(web) && Load(cache, file, web, fs).result.Ok?
    ensures var loaded := Load(cache, file, web, fs);
            var body := loaded.result.value.0;
            if loaded.cache.Disk? then loaded.file.Some? && loaded.file.value.body == body
            else loaded.cache.body == Some(body)
  {
  }

  /** A failed load loses nothing that is in memory, and from disk at most the use of the disk. */
  lemma FailureKeepsMemory(cache: Cache, file: Option<File>, web: Web, fs: Fs)
    requires WellFormed(web) && Load(cache, file, web, fs).result.Err?
    ensures var loaded := Load(cache, file, web, fs);
            loaded.file == file && (loaded.cache == cache || (cache.Disk? && loaded.cache == EMPTY))
  {
  }

  /** Whether the cache holds a body that can be read and bears the HEAD's second; of a body in memory,
      that is the timestamp stored with it. */
  predicate Current(cache: Cache, file: Option<File>, remote: Option<Timestamp>, fs: Fs) {
    && remote.Some?
    && match cache
       case Disk =>
         !fs.metadataFails && !fs.readFails && file.Some? && SameSecond(file.value.modified, remote.value.time)
       case Memory(body, modified) => body.Some? && modified.Some? && SameSecond(modified.value.time, remote.value.time)
  }

  function Cached(cache: Cache, file: Option<File>, remote: Option<Timestamp>, fs: Fs): Body
    requires Current(cache, file, remote, fs)
  {
    if cache.Disk? then file.value.body else cache.body.value
  }

  /** A load that gets an answer to its HEAD downloads nothing exactly when the cache is current; then
      it returns what the cache holds and leaves it as it is. */
  lemma ServedExactlyWhenCurrent(cache: Cache, file: Option<File>, web: Web, fs: Fs)
    requires WellFormed(web) && HeadResult(web).Ok?
    ensures var loaded := Load(cache, file, web, fs);
            var (remote, headUrl) := HeadResult(web).value;
            && (loaded.result.Ok? && !loaded.downloaded <==> Current(cache, file, remote, fs))
            && (Current(cache, file, remote, fs) ==>
                  loaded == Loaded(Ok((Cached(cache, file, remote, fs), headUrl)), false, cache, file))
            && (!Current(cache, file, remote, fs) ==>
                  && (loaded.result.Ok? <==> GetResult(web).Ok?)
                  && (loaded.result.Ok?
                      ==> loaded.result.value == (GetResult(web).value.0, GetResult(web).value.0.url)))
  {
  }

  /** What is downloaded is stored with its timestamp: in the file as long as nothing fails there, and
      in memory from then on. */
  lemma DownloadIsStored(cache: Cache, file: Option<File>, web: Web, fs: Fs)
    requires WellFormed(web) && Load(cache, file, web, fs).downloaded && Load(cache, file, web, fs).result.Ok?
    ensures HeadResult(web).Ok? && GetResult(web).Ok?
    ensures var loaded := Load(cache, file, web, fs);
            var (remote, headUrl) := HeadResult(web).value;
            var (body, sent) := GetResult(web).value;
            var stamp := if sent.Some? then sent else if body.url == headUrl then remote else None;
            if cache.Disk? && !(fs.metadataFails && remote.Some?) && !fs.readFails then
              if !fs.dirFails && fs.write.Written? && (stamp.None? || !fs.timesFail) then
                && loaded.cache == Disk
                && loaded.file == Some(File(body, if stamp.Some? then stamp.value.time else fs.now, stamp))
              else
                loaded.cache == Memory(Some(body), stamp)
            else
              cache.Memory? ==> loaded.cache == Memory(Some(body), stamp) && loaded.file == file
  {
  }

  /** The time the cache goes by. */
  function CachedTime(cache: Cache, file: Option<File>): Option<int> {
    match cache
    case Disk => if file.Some? then Some(file.value.modified) else None
    case Memory(body, modified) => if body.Some? && modified.Some? then Some(modified.value.time) else None
  }

  /** In numbers: with an answer to the HEAD nothing is downloaded exactly when the cached body can be
      read and its time and the HEAD's lie in the same second, or both before 1970. */
  lemma ServedBySecond(cache: Cache, file: Option<File>, web: Web, fs: Fs)
    requires WellFormed(web) && HeadResult(web).Ok?
    ensures var loaded := Load(cache, file, web, fs);
            var cached, remote := CachedTime(cache, file), HeadResult(web).value.0;
            loaded.result.Ok? && !loaded.downloaded <==>
              && cached.Some? && remote.Some?
              && (cache.Disk? ==> !fs.metadataFails && !fs.readFails)
              && (if cached.value >= 0 && remote.value.time >= 0 then
                    cached.value / 1_000_000_000 == remote.value.time / 1_000_000_000
                  else
                    cached.value < 0 && remote.value.time < 0)
  {
    ServedExactlyWhenCurrent(cache, file, web, fs);
  }

  /** A list that is a second or more newer is never taken from the cache. */
  lemma NewerIsDownloaded(cache: Cache, file: Option<File>, web: Web, fs: Fs)
    requires WellFormed(web) && HeadResult(web).Ok? && HeadResult(web).value.0.Some?
    requires HeadResult(web).value.0.value.time >= 0 && CachedTime(cache, file).Some?
    requires HeadResult(web).value.0.value.time >= CachedTime(cache, file).value + 1_000_000_000
    ensures Load(cache, file, web, fs).result.Ok? <==> GetResult(web).Ok?
    ensures Load(cache, file, web, fs).result.Ok? ==>
              && Load(cache, file, web, fs).downloaded
              && Load(cache, file, web, fs).result.value.0 == GetResult(web).value.0
  {
    ServedBySecond(cache, file, web, fs);
    ServedExactlyWhenCurrent(cache, file, web, fs);
  }

  /** The timestamp of a download from the URL that also answered the HEAD. */
  function StampOf(web: Web, i: nat): Option<int>
    requires WellFormed(web) && i < |web.urls| && web.heads[i].HeadOk? && web.gets[i].GetOk?
  {
    if web.gets[i].modified.Some? then web.gets[i].modified else web.heads[i].modified
  }

  /** Loading again while the source that was downloaded from keeps its timestamp downloads nothing
      and returns the same, from disk or from memory. */
  lemma LoadingAgainIsServed(cache: Cache, file: Option<File>, web: Web, fs: Fs, web': Web, fs': Fs)
    requires WellFormed(web) && WellFormed(web') && web'.urls == web.urls && !fs'.metadataFails && !fs'.readFails
    requires var loaded := Load(cache, file, web, fs); loaded.result.Ok? && loaded.downloaded
    requires FirstHead(web) == FirstGet(web) == FirstHead(web')
    requires StampOf(web, FirstGet(web)).Some? && web'.heads[FirstHead(web')].modified == StampOf(web, FirstGet(web))
    ensures var loaded := Load(cache, file, web, fs);
            Load(loaded.cache, loaded.file, web', fs') == loaded.(downloaded := false)
  {
  }

  // ---- Runs ----

  /** A load, or a change of the file by another loader or program. */
  datatype Event = LoadEvent(web: Web, fs: Fs) | FileChange(file: Option<File>)

  datatype Row = Row(cache: Cache, file: Option<File>)

  predicate Follows(before: Row, event: Event, after: Row) {
    match event
    case FileChange(file) => FileOk(file) && after == before.(file := file)
    case LoadEvent(web, fs) =>
      && WellFormed(web) && FsOk(fs)
      && var loaded := Load(before.cache, before.file, web, fs);
         after == Row(loaded.cache, loaded.file)
  }

  ghost predicate Run(rows: seq<Row>, events: seq<Event>) {
    && |rows| == |events| + 1
    && rows[0].cache in {Disk, EMPTY} && FileOk(rows[0].file)
    && forall i | 0 <= i < |events| :: Follows(rows[i], events[i], rows[i + 1])
  }

  lemma {:induction false} AlwaysRecordedFromTheSameUrl(rows: seq<Row>, events: seq<Event>, i: nat)
    requires Run(rows, events) && i < |rows|
    ensures CacheOk(rows[i].cache) && FileOk(rows[i].file)
  {
    if i > 0 {
      AlwaysRecordedFromTheSameUrl(rows, events, i - 1);
      assert Follows(rows[i - 1], events[i - 1], rows[i]);
      if events[i - 1].LoadEvent? {
        RecordedFromTheSameUrl(rows[i - 1].cache, rows[i - 1].file, events[i - 1].web, events[i - 1].fs);
      }
    }
  }

  /** The cache goes from disk to memory at most once, and never back. */
  lemma {:induction false} MemoryIsForGood(rows: seq<Row>, events: seq<Event>, i: nat, j: nat)
    requires Run(rows, events) && i <= j < |rows| && rows[i].cache.Memory?
    ensures rows[j].cache.Memory?
    decreases j
  {
    if i < j {
      MemoryIsForGood(rows, events, i, j - 1);
      assert Follows(rows[j - 1], events[j - 1], rows[j]);
    }
  }

  // ---- Where a body came from ----

  /** The URL returned with a body is the one it was downloaded from exactly when the cache is not
      current, so that the body is downloaded, or holds a body from the URL that answered the HEAD. */
  lemma SourceIsItsUrlExactlyWhen(cache: Cache, file: Option<File>, web: Web, fs: Fs)
    requires WellFormed(web) && Load(cache, file, web, fs).result.Ok?
    ensures HeadResult(web).Ok?
    ensures var (body, source) := Load(cache, file, web, fs).result.value;
            var (remote, headUrl) := HeadResult(web).value;
            source == body.url <==>
              !Current(cache, file, remote, fs) || Cached(cache, file, remote, fs).url == headUrl
  {
    ServedExactlyWhenCurrent(cache, file, web, fs);
  }

  /** Mirrors "a" and "b"; only `i` answers. */
  function OnlyOne(i: nat): Web
    requires i < 2
  {
    Web(["a", "b"],
        seq(2, k => if k == i then HeadOk(Some(0)) else HeadFailed),
        seq(2, k => if k == i then GetOk([], Some(0)) else GetFailed))
  }

  lemma OnlyOneAnswers(i: nat)
    requires i < 2
    ensures var web := OnlyOne(i);
            && WellFormed(web) && FirstHead(web) == FirstGet(web) == i
            && HeadResult(web) == Ok((Some(Timestamp(0, web.urls[i])), web.urls[i]))
            && GetResult(web) == Ok((Body([], web.urls[i]), Some(Timestamp(0, web.urls[i]))))
  {
    FirstsAreUnique(OnlyOne(i), i);
  }

  const QUIET := Fs(false, false, false, Written, false, 0)

  /** It happens: an empty cache is filled from one mirror; then only the other answers, which has a
      file of the same second, and the body of the first is returned as the second's. */
  lemma ServedOnAnotherWord() returns (rows: seq<Row>, events: seq<Event>)
    ensures Run(rows, events) && rows[0] == Row(EMPTY, None) && |events| == 2
    ensures events[1].LoadEvent? && WellFormed(events[1].web)
    ensures Load(rows[1].cache, rows[1].file, events[1].web, events[1].fs).result == Ok((Body([], "a"), "b"))
  {
    OnlyOneAnswers(0);
    OnlyOneAnswers(1);
    events := [LoadEvent(OnlyOne(0), QUIET), LoadEvent(OnlyOne(1), QUIET)];
    var filled := Memory(Some(Body([], "a")), Some(Timestamp(0, "a")));
    assert Load(EMPTY, None, OnlyOne(0), QUIET).cache == filled;
    assert Current(filled, None, Some(Timestamp(0, "b")), QUIET);
    ServedExactlyWhenCurrent(filled, None, OnlyOne(1), QUIET);
    rows := [Row(EMPTY, None), Row(filled, None), Row(filled, None)];
    assert Follows(rows[0], events[0], rows[1]) && Follows(rows[1], events[1], rows[2]);
  }
}
