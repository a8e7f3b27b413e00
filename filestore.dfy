/**
 * The fallback store: a per-project directory of undelivered batches, one
 * JSON file per batch. The directory is a map from file name to content.
 */
module FileStore {
  import opened LogEntries
  import opened NameOrder

  /** The character that replaces every character not allowed in a file name. */
  const Placeholder := '_'

  /** Replaces each invalid file-name character by the placeholder. */
  function SanitizeName(name: string, invalid: set<char>): (r: string)
    ensures |r| == |name|
    ensures forall i :: 0 <= i < |name| ==>
      r[i] == (if name[i] in invalid then Placeholder else name[i])
  {
    if name == [] then []
    else [if name[0] in invalid then Placeholder else name[0]] + SanitizeName(name[1..], invalid)
  }

  /** Sanitizing a sanitized name changes nothing, because the placeholder is itself valid. */
  lemma SanitizeNameIdempotent(name: string, invalid: set<char>)
    requires Placeholder !in invalid
    ensures SanitizeName(SanitizeName(name, invalid), invalid) == SanitizeName(name, invalid)
    ensures forall i :: 0 <= i < |name| ==> SanitizeName(name, invalid)[i] !in invalid
  {
  }

  /** The directory segments under the temporary path. */
  const DirectoryName := "Pbg.Logging"

  const FilePrefix := "batch_"
  const FileSuffix := ".json"

  /** batch_<UTC timestamp to the millisecond>_<GUID without dashes>.json */
  function BatchFileName(stamp: string, unique: string): string {
    FilePrefix + stamp + "_" + unique + FileSuffix
  }

  /** The name matches the search pattern batch_*.json. */
  predicate MatchesPattern(name: string) {
    && |name| >= |FilePrefix| + |FileSuffix|
    && name[..|FilePrefix|] == FilePrefix
    && name[|name| - |FileSuffix|..] == FileSuffix
  }

  lemma BatchFileNameMatches(stamp: string, unique: string)
    ensures MatchesPattern(BatchFileName(stamp, unique))
  {
    var n := BatchFileName(stamp, unique);
    assert n == FilePrefix + (stamp + "_" + unique + FileSuffix);
    assert n == (FilePrefix + stamp + "_" + unique) + FileSuffix;
  }

  /** What a file holds, as far as the deserializer is concerned. */
  datatype FileContent =
    | JsonArray(items: seq<JsonObject>)   // a JSON array of entry objects
    | JsonNullLiteral                     // the JSON text null
    | Unreadable                          // truncated, not JSON, or not an array of objects

  /** Serializes a batch as a JSON array holding each entry's object, in order. */
  function EncodeBatch(b: Batch): (c: FileContent)
    ensures c.JsonArray? && |c.items| == |b|
    ensures forall i :: 0 <= i < |b| ==> c.items[i] == EncodeEntry(b[i])
  {
    JsonArray(EncodeEntries(b))
  }

  /** Deserializes a file: null for the JSON literal null and for anything that
      cannot be bound to a list of entries. */
  function DecodeBatch(c: FileContent): (r: Option<Batch>)
    ensures r.Some? ==> c.JsonArray? && |r.value| == |c.items|
  {
    match c
    case JsonArray(items) =>
      (match DecodeEntries(items)
       case Ok(b) => Some(b)
       case Malformed => None)
    case _ => None
  }

  /** Content loads as a list exactly when it is an array whose every object
      binds to an entry, and then element i is what object i binds to. */
  lemma DecodeBatchElements(c: FileContent)
    ensures var r := DecodeBatch(c);
      && (r.Some? <==> c.JsonArray? && forall i :: 0 <= i < |c.items| ==> WellTyped(c.items[i]))
      && (r.Some? ==> forall i :: 0 <= i < |c.items| ==> DecodeEntry(c.items[i]) == Ok(r.value[i]))
  {
    if c.JsonArray? {
      DecodeEntriesElements(c.items);
    }
  }

  /** What a stored batch reads back as: the batch itself. */
  lemma {:induction false} BatchRoundTrip(b: Batch)
    ensures DecodeBatch(EncodeBatch(b)) == Some(b)
  {
    EntriesRoundTrip(b);
  }

  /** How the disk behaves during one save: File.Create can fail (nothing is
      written), or the serializer can fail after the file was created (a
      truncated file remains). Either failure is an exception out of Save. */
  datatype SaveFault = NoFault | CreateFails | WriteFails

  class Store {
    /** Temp path, "Pbg.Logging", sanitized project name. */
    const directory: seq<string>
    /** Directory.Exists */
    var present: bool
    var files: map<string, FileContent>

    ghost predicate Valid()
      reads this
    {
      !present ==> files == map[]
    }

    /** Creates (or opens) the project directory; files left by earlier runs
        are found there. */
    constructor (tempPath: string, projectName: string, invalid: set<char>,
                 existing: map<string, FileContent>)
      ensures Valid()
      ensures directory == [tempPath, DirectoryName, SanitizeName(projectName, invalid)]
      ensures present && files == existing
    {
      directory := [tempPath, DirectoryName, SanitizeName(projectName, invalid)];
      present := true;
      files := existing;
    }

    /** Something outside the process removes the directory (a temp-folder
        cleanup); every operation of the store then sees it missing. */
    method DirectoryRemoved()
      modifies this
      ensures Valid() && !present && files == map[]
    {
      present := false;
      files := map[];
    }

    /** Writes the batch to a new file named from the clock and a GUID. */
    method Save(logs: Batch, stamp: string, unique: string, fault: SaveFault) returns (threw: bool)
      requires Valid()
      modifies this
      ensures Valid() && present == old(present)
      ensures threw <==> !present || fault != NoFault
      ensures var name := BatchFileName(stamp, unique);
        files == if !present || fault == CreateFails then old(files)
                 else if fault == WriteFails then old(files)[name := Unreadable]
                 else old(files)[name := EncodeBatch(logs)]
    {
      var name := BatchFileName(stamp, unique);
      if !present || fault == CreateFails {
        return true;
      }
      if fault == WriteFails {
        files := files[name := Unreadable];
        return true;
      }
      files := files[name := EncodeBatch(logs)];
      threw := false;
    }

    /** The names of the stored batches, in ascending order; none when the
        directory is missing. */
    method GetPendingFiles() returns (r: seq<string>)
      requires Valid()
      ensures !present ==> r == []
      ensures StrictlySorted(r)
      ensures forall n :: n in r <==> n in files && MatchesPattern(n)
    {
      if !present {
        return [];
      }
      var rest := set n | n in files && MatchesPattern(n);
      r := [];
      while rest != {}
        invariant StrictlySorted(r)
        invariant forall n :: n in files && MatchesPattern(n) <==> n in r || n in rest
        invariant forall i, x :: 0 <= i < |r| && x in rest ==> Below(r[i], x)
        invariant forall x :: x in rest ==> x !in r
        decreases rest
      {
        LeastExists(rest);
        var m :| IsLeast(m, rest);
        r := r + [m];
        rest := rest - {m};
      }
    }

    /** Reads a stored batch; null (here None) on any failure, including a
        missing file. */
    function LoadBatch(name: string): (r: Option<Batch>)
      reads this
      ensures r.Some? ==> present && name in files
      ensures present && name in files ==> r == DecodeBatch(files[name])
    {
      if present && name in files then DecodeBatch(files[name]) else None
    }

    /** Deletes a file, swallowing any failure. */
    method DeleteBatch(name: string, removable: bool)
      requires Valid()
      modifies this
      ensures Valid() && present == old(present)
      ensures files == if present && removable then old(files) - {name} else old(files)
    {
      if present && removable {
        files := files - {name};
      }
    }
  }
}
