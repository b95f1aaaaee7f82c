/** The decision per request: a miss is queued, a stale entry is queued again, a hit is read from the store. */
module CacheServer {
  import opened Bytes
  import opened CacheSystem
  import opened CacheScheduling
  import opened FileMetadata
  import opened RangeList
  import Files = FileReader
  import SystemRuns
  import SystemResults

  /** `F_DB_STATE_PENDING`, `F_DB_STATE_READY` and what stands for no row. */
  const PENDING := 0
  const READY := 1
  const NO_ROW := -1

  datatype FileRow = FileRow(state: int, meta: FileMeta)

  /** Data, no data and no error, an error, or the end of the process. */
  datatype Reply = Served(data: seq<byte>) | NotYet | Failed | Dead

  /** The blob handler as the reader sees it: an unknown blob is no data without an error. */
  ghost function Answers(c: Config, s: State): Files.Store {
    token =>
      match CacheSystem.Get(c, s, token)
      case Data(d) => Files.Data(d)
      case NoTriplet => Files.Missing
      case NoBlob => Files.Data([])
      case Fatal => Files.Fatal
  }

  /** The file of a ready row reads back as the bytes that were put exactly when there are some and their number fits
      an int32. Only in 4K mode can an empty file read back, and then because its token yields foreign bytes. */
  lemma HitIsExact(c: Config, s: State, f: string)
    requires SystemResults.Reachable(c, s) && f in s.rows && s.rows[f].ready
    ensures SystemRuns.RowKey(s.rows[f]) in s.blobs
    ensures var row := s.rows[f];
            var data, get := s.blobs[SystemRuns.RowKey(row)], Answers(c, s);
            Files.ReadFromCache([RangeCode(0, row.size, row.token)], get, 0, row.size) == Files.Read(data)
            <==> if data == [] then c.aligned && get(row.token).Data? && Wrap32(|get(row.token).data|) > 0
                 else |data| < 0x8000_0000
  {
    hide SystemResults.Reachable, CacheSystem.Get, Files.ReadFromCache, SystemRuns.RowKey;
    SystemResults.ReadyRowHolds(c, s, f);
    var row := s.rows[f];
    var data := s.blobs[SystemRuns.RowKey(row)];
    if data == [] {
      Files.EmptyRead(row.token, Answers(c, s));
    } else {
      Files.WholeRead(row.token, data, Answers(c, s));
    }
  }

  /** A token that the store misses is an error to the reader, whether the triplet or the blob is gone, and only a read
      that stops the store stops the reader. */
  lemma MissIsError(c: Config, s: State, token: string, n: nat)
    requires n < 0x8000_0000
    ensures var r := Files.ReadFromCache([RangeCode(0, n, token)], Answers(c, s), 0, n);
            && (CacheSystem.Get(c, s, token) in {NoTriplet, NoBlob} ==> r == Files.Error)
            && (r == Files.Panic <==> CacheSystem.Get(c, s, token) == CacheSystem.Fatal)
  {
    hide CacheSystem.Get, Files.ReadFromCache;
    Files.FailedRead(token, n, Answers(c, s));
  }

  class OssHolderServer {
    var dbOpsFile: map<string, FileRow>
    var mgr: CacheManager

    constructor (mgr: CacheManager)
      ensures dbOpsFile == map[] && this.mgr == mgr
    {
      dbOpsFile := map[];
      this.mgr := mgr;
    }

    method ListFileAndState(fileName: string) returns (fm: FileMeta, state: int)
      ensures state == if fileName in dbOpsFile then dbOpsFile[fileName].state else NO_ROW
      ensures fileName in dbOpsFile ==> fm == dbOpsFile[fileName].meta
    {
      if fileName in dbOpsFile {
        fm, state := dbOpsFile[fileName].meta, dbOpsFile[fileName].state;
      } else {
        fm, state := FileMeta("", "", None, "", None, ""), NO_ROW;
      }
    }

    /** A read of the whole file. `slow` says that the row was looked up so long ago that its triplet may be purged. */
    method TryReadFromCache(fileName: string, etag: string, slow: bool, get: Files.Store) returns (r: Reply)
      requires mgr.Valid()
      modifies this`dbOpsFile, mgr`writeItemMap, mgr`wQueue, mgr`accepted
      ensures mgr.Valid() && fileName in dbOpsFile
      ensures forall f :: f != fileName ==>
                (f in dbOpsFile <==> f in old(dbOpsFile)) && (f in dbOpsFile ==> dbOpsFile[f] == old(dbOpsFile)[f])
      // a miss and a changed etag leave a pending row and a queued download
      ensures fileName !in old(dbOpsFile)
              || (old(dbOpsFile)[fileName].state == 1 && old(dbOpsFile)[fileName].meta.Etag != etag) ==>
                && r == NotYet && dbOpsFile[fileName].state == 0 && dbOpsFile[fileName].meta.Etag == etag
                && fileName in mgr.wQueue && mgr.View() == DoEnqueue(old(mgr.View()), fileName, fileName)
                && mgr.wQueue == old(mgr.wQueue) + (if fileName in old(mgr.writeItemMap) then [] else [fileName])
      ensures fileName !in old(dbOpsFile) ==>
                dbOpsFile[fileName].meta == FileMeta(fileName, "", None, "", None, etag)
      // a changed etag is all that changes in the metadata
      ensures fileName in old(dbOpsFile) && old(dbOpsFile)[fileName].state == 1 ==>
                dbOpsFile[fileName].meta == old(dbOpsFile)[fileName].meta.(Etag := etag)
      // what a request is told, and every ready row with that etag that reads back is served
      ensures fileName in old(dbOpsFile) && old(dbOpsFile)[fileName].state == 0 ==> r == NotYet
      ensures fileName in old(dbOpsFile) && old(dbOpsFile)[fileName].state !in {0, 1} ==> r == Failed
      ensures fileName in old(dbOpsFile) && old(dbOpsFile)[fileName].state == 1
              && old(dbOpsFile)[fileName].meta.Etag == etag ==>
                match old(dbOpsFile)[fileName].meta.RngCodeList
                case None => r == NotYet
                case Some(codes) =>
                  if codes == [] then r == Dead
                  else if slow then r == Failed
                  else
                    match Files.ReadFromCache(codes, get, codes[0].Start, codes[0].End)
                    case Read(data) => r == Served(data)
                    case Error => r == Failed
                    case Panic => r == Dead
      // everything else changes nothing
      ensures fileName in old(dbOpsFile)
              && (old(dbOpsFile)[fileName].state == 1 ==> old(dbOpsFile)[fileName].meta.Etag == etag) ==>
                dbOpsFile == old(dbOpsFile) && mgr.View() == old(mgr.View())
      // data comes from a ready row with the etag that was asked for
      ensures r.Served? ==>
                && fileName in old(dbOpsFile) && dbOpsFile[fileName].state == 1
                && dbOpsFile[fileName].meta.Etag == etag && !slow
                && dbOpsFile[fileName].meta.RngCodeList.Some?
                && var codes := dbOpsFile[fileName].meta.RngCodeList.value;
                   codes != [] && Files.ReadFromCache(codes, get, codes[0].Start, codes[0].End) == Files.Read(r.data)
    {
      var fm, state := ListFileAndState(fileName);
      if state == NO_ROW && fileName !in dbOpsFile {
        dbOpsFile := dbOpsFile[fileName := FileRow(PENDING, FileMeta(fileName, "", None, "", None, etag))];
        mgr.EnqueueWriteReq(fileName, fileName);
        return NotYet;
      }
      if state == PENDING {
        return NotYet;
      } else if state != READY {
        return Failed;
      }
      if etag != fm.Etag {
        dbOpsFile := dbOpsFile[fileName := FileRow(PENDING, fm.(Etag := etag))];
        mgr.EnqueueWriteReq(fileName, fileName);
        return NotYet;
      }
      if fm.RngCodeList == None {
        return NotYet;
      }
      var codes := fm.RngCodeList.value;
      if codes == [] {
        return Dead;
      }
      if slow {
        return Failed;
      }
      match Files.ReadFromCache(codes, get, codes[0].Start, codes[0].End)
      case Read(data) => r := Served(data);
      case Error => r := Failed;
      case Panic => r := Dead;
    }
  }
}
