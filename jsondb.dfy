/**
 * The file-backed store.  The directory is modelled as a map from id to the
 * record held in that id's file; the JSON encoding of a file is taken to give
 * back exactly the record that was written.  The filesystem and the encoder
 * can fail: every call takes a `Fault` saying whether, and where, it fails.
 */
module JsonDb {
  import opened Wrappers
  import opened Errors
  import opened Entries

  /** The directory's contents: one record per file, keyed by file name. */
  type Records = map<string, Entry>

  /**
   * How the filesystem and the encoder behave during one call.
   * `StatFault`: checking the file fails for a reason other than its absence.
   * `IoFault`: a later step fails (reading, decoding, encoding, writing or
   * removing the file).  `Create` checks no file, so for it either kind is a
   * failed encode or write.  The error is one the filesystem or the encoder
   * produces, never a not-found error.
   */
  datatype Fault = NoFault | StatFault(error: FsError) | IoFault(error: FsError)

  /** The caller's entry after `Read`, and the error returned. */
  datatype ReadReply = ReadReply(entry: Entry, err: Option<Error>)

  /** The directory after `Create`, the id it used, the caller's entry afterwards, and the error. */
  datatype CreateReply = CreateReply(records: Records, id: string, entry: Entry, err: Option<Error>)

  /** The directory after `Update`, the caller's entry afterwards, and the error. */
  datatype UpdateReply = UpdateReply(records: Records, entry: Entry, err: Option<Error>)

  /** The directory after `Delete`, and the error. */
  datatype DeleteReply = DeleteReply(records: Records, err: Option<Error>)

  /** The ids listed, and the error. */
  datatype IdsReply = IdsReply(ids: set<string>, err: Option<Error>)

  /** `Read`: check the file, read and decode it into the entry, then assign the id. */
  function ReadResult(records: Records, id: string, entry: Entry, fault: Fault): (r: ReadReply)
    ensures r.err == None <==> fault == NoFault && id in records
    ensures r.err == None ==> r.entry.id == id && r.entry.AssignId(records[id].id) == records[id]
    ensures r.err != None ==> r.entry == entry
    ensures !fault.StatFault? && id !in records ==> r.err == Some(Missing(id))
    ensures r.err.Some? && r.err.value.NotFound? ==> !fault.StatFault? && id !in records
    ensures fault != NoFault && (fault.StatFault? || id in records) ==> r.err == Some(fault.error)
  {
    if fault.StatFault? then ReadReply(entry, Some(fault.error))
    else if id !in records then ReadReply(entry, Some(Missing(id)))
    else if fault.IoFault? then ReadReply(entry, Some(fault.error))
    else ReadReply(records[id].AssignId(id), None)
  }

  /**
   * `Create`: take the generator's id, assign it and stamp the creation time
   * on the entry, encode it and write it under that id.  There is no
   * existence check: a reused id overwrites its record.
   */
  function CreateResult(records: Records, entry: Entry, newId: string, now: Time, fault: Fault): (r: CreateReply)
    ensures r.id == newId
    ensures r.entry == entry.(id := newId, created := Some(now))
    ensures r.err == None <==> fault == NoFault
    ensures r.err == None ==> newId in r.records && r.records[newId] == r.entry
    ensures r.err == None ==> r.records.Keys == records.Keys + {newId}
    ensures r.err == None ==> forall k :: k in records && k != newId ==> r.records[k] == records[k]
    ensures r.err != None ==> r.records == records
    ensures fault != NoFault ==> r.err == Some(fault.error)
  {
    var stamped := entry.AssignId(newId).Created(now);
    if fault.NoFault? then CreateReply(records[newId := stamped], newId, stamped, None)
    else CreateReply(records, newId, stamped, Some(fault.error))
  }

  /** `Delete`: check the file, then remove it. */
  function DeleteResult(records: Records, id: string, fault: Fault): (r: DeleteReply)
    ensures r.err == None <==> fault == NoFault && id in records
    ensures r.err == None ==> r.records.Keys == records.Keys - {id}
    ensures forall k :: k in r.records ==> k in records && r.records[k] == records[k]
    ensures r.err != None ==> r.records == records
    ensures !fault.StatFault? && id !in records ==> r.err == Some(Missing(id))
    ensures r.err.Some? && r.err.value.NotFound? ==> !fault.StatFault? && id !in records
    ensures fault != NoFault && (fault.StatFault? || id in records) ==> r.err == Some(fault.error)
  {
    if fault.StatFault? then DeleteReply(records, Some(fault.error))
    else if id !in records then DeleteReply(records, Some(Missing(id)))
    else if fault.IoFault? then DeleteReply(records, Some(fault.error))
    else DeleteReply(records - {id}, None)
  }

  /**
   * `Update`: check the file, stamp the modification time on the entry,
   * encode it and write it under `id`.  A missing file is reported before
   * anything is stamped.
   */
  function UpdateResult(records: Records, id: string, entry: Entry, now: Time, fault: Fault): (r: UpdateReply)
    ensures r.err == None <==> fault == NoFault && id in records
    ensures r.entry == if !fault.StatFault? && id in records then entry.(modified := Some(now)) else entry
    ensures r.err == None ==> r.records.Keys == records.Keys && r.records[id] == r.entry
    ensures r.err == None ==> forall k :: k in records && k != id ==> r.records[k] == records[k]
    ensures r.err != None ==> r.records == records
    ensures !fault.StatFault? && id !in records ==> r.err == Some(Missing(id))
    ensures r.err.Some? && r.err.value.NotFound? ==> !fault.StatFault? && id !in records
    ensures fault != NoFault && (fault.StatFault? || id in records) ==> r.err == Some(fault.error)
  {
    if fault.StatFault? then UpdateReply(records, entry, Some(fault.error))
    else if id !in records then UpdateReply(records, entry, Some(Missing(id)))
    else
      var stamped := entry.Modified(now);
      if fault.IoFault? then UpdateReply(records, stamped, Some(fault.error))
      else UpdateReply(records[id := stamped], stamped, None)
  }

  /** Listing the directory: the ids of all the files. */
  function IdsResult(records: Records, fault: Fault): (r: IdsReply)
    ensures r.err == None <==> fault == NoFault
    ensures r.ids == if fault == NoFault then records.Keys else {}
    ensures fault != NoFault ==> r.err == Some(fault.error)
  {
    if fault.NoFault? then IdsReply(records.Keys, None) else IdsReply({}, Some(fault.error))
  }

  /** A record written by `Create` reads back as the stamped entry. */
  lemma CreateThenRead(records: Records, entry: Entry, newId: string, now: Time, target: Entry)
    ensures var c := CreateResult(records, entry, newId, now, NoFault);
            ReadResult(c.records, newId, target, NoFault)
              == ReadReply(entry.(id := newId, created := Some(now)), None)
  {
  }

  /** A record written by `Update` reads back as the stamped entry, with the id it is stored under. */
  lemma UpdateThenRead(records: Records, id: string, entry: Entry, now: Time, target: Entry)
    requires id in records
    ensures var u := UpdateResult(records, id, entry, now, NoFault);
            ReadResult(u.records, id, target, NoFault)
              == ReadReply(entry.(id := id, modified := Some(now)), None)
  {
  }

  /** After a successful `Delete`, reading the id reports it missing. */
  lemma DeleteThenRead(records: Records, id: string, target: Entry, fault: Fault)
    requires id in records
    requires !fault.StatFault?
    ensures var d := DeleteResult(records, id, NoFault);
            ReadResult(d.records, id, target, fault) == ReadReply(target, Some(Missing(id)))
  {
  }

  /**
   * The store over a directory.  The id generator and the clock are not
   * fields: each `Create` and `Update` is handed the value they produce.
   */
  class Db {
    var records: Records

    /** `New`: a store over a directory that already holds `existing`. */
    constructor (existing: Records)
      ensures records == existing
    {
      records := existing;
    }

    method Read(id: string, entry: Entry, fault: Fault) returns (result: Entry, err: Option<Error>)
      ensures ReadReply(result, err) == ReadResult(records, id, entry, fault)
    {
      if fault.StatFault? {
        return entry, Some(fault.error);
      }
      if id !in records {
        return entry, Some(Missing(id));
      }
      if fault.IoFault? {
        return entry, Some(fault.error);
      }
      result := records[id].AssignId(id);
      err := None;
    }

    method Create(entry: Entry, newId: string, now: Time, fault: Fault)
      returns (id: string, result: Entry, err: Option<Error>)
      modifies this
      ensures CreateReply(records, id, result, err) == CreateResult(old(records), entry, newId, now, fault)
    {
      id := newId;
      result := entry.AssignId(id);
      result := result.Created(now);
      if !fault.NoFault? {
        return id, result, Some(fault.error);
      }
      records := records[id := result];
      err := None;
    }

    method Delete(id: string, fault: Fault) returns (err: Option<Error>)
      modifies this
      ensures DeleteReply(records, err) == DeleteResult(old(records), id, fault)
    {
      if fault.StatFault? {
        return Some(fault.error);
      }
      if id !in records {
        return Some(Missing(id));
      }
      if fault.IoFault? {
        return Some(fault.error);
      }
      records := records - {id};
      err := None;
    }

    method Update(id: string, entry: Entry, now: Time, fault: Fault) returns (result: Entry, err: Option<Error>)
      modifies this
      ensures UpdateReply(records, result, err) == UpdateResult(old(records), id, entry, now, fault)
    {
      result := entry;
      if fault.StatFault? {
        return result, Some(fault.error);
      }
      if id !in records {
        return result, Some(Missing(id));
      }
      result := result.Modified(now);
      if fault.IoFault? {
        return result, Some(fault.error);
      }
      records := records[id := result];
      err := None;
    }

    /** Lists the ids of the directory's files, each once. */
    method Ids(fault: Fault) returns (ids: seq<string>, err: Option<Error>)
      ensures err == IdsResult(records, fault).err
      ensures Distinct(ids)
      ensures forall id :: id in ids <==> id in IdsResult(records, fault).ids
    {
      if !fault.NoFault? {
        return [], Some(fault.error);
      }
      ids := Enumerate(records.Keys);
      err := None;
    }
  }

}
