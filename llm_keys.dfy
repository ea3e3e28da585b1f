/** The registry of Gemini API keys kept by llm.py in `llm_key.json`: a JSON
    list of `{"pid": ..., "api_key": ...}` records, one or more per project.
    Lookup and update both act on the first record of a project. */
module LlmKeys {
  import opened Wrappers
  import opened Text
  import opened Http

  /** One record of llm_key.json. */
  datatype KeyRecord = KeyRecord(pid: int, apiKey: string)

  /** The position of the first record of project `pid`. */
  function FirstMatch(records: seq<KeyRecord>, pid: int): (r: Option<nat>)
    ensures r.Some? ==> r.value < |records| && records[r.value].pid == pid
    ensures r.Some? ==> forall j | 0 <= j < r.value :: records[j].pid != pid
    ensures r.None? <==> forall j | 0 <= j < |records| :: records[j].pid != pid
  {
    if records == [] then None
    else if records[0].pid == pid then Some(0)
    else match FirstMatch(records[1..], pid)
      case None => None
      case Some(i) => Some(i + 1)
  }

  /** A first record is the first record. */
  lemma FirstMatchAt(records: seq<KeyRecord>, pid: int, i: nat)
    requires i < |records| && records[i].pid == pid
    requires forall j | 0 <= j < i :: records[j].pid != pid
    ensures FirstMatch(records, pid) == Some(i)
  {
  }

  /** The key of project `pid`: that of its first record. */
  function Lookup(records: seq<KeyRecord>, pid: int): Option<string> {
    match FirstMatch(records, pid)
    case None => None
    case Some(i) => Some(records[i].apiKey)
  }

  /** What load_key answers for a registry file. */
  function LoadKeyOutcome(file: FileState<seq<KeyRecord>>, pid: int): (r: Result<string, Failure>)
    ensures file.Missing? ==> r == Err(HttpError(404, "llm_key.json file not found"))
    ensures file.Corrupt? ==> r == Err(HttpError(500, "llm_key.json file is not valid JSON"))
    ensures file.Present? ==>
      (r.Ok? <==> exists i | 0 <= i < |file.contents| :: file.contents[i].pid == pid)
    ensures file.Present? && r.Ok? ==> Lookup(file.contents, pid) == Some(r.value)
    ensures file.Present? && r.Err? ==>
      r == Err(HttpError(404, "Key with pid " + Decimal(pid) + " not found"))
  {
    match file
    case Missing => Err(HttpError(404, "llm_key.json file not found"))
    case Corrupt => Err(HttpError(500, "llm_key.json file is not valid JSON"))
    case Present(records) =>
      match FirstMatch(records, pid)
      case None => Err(HttpError(404, "Key with pid " + Decimal(pid) + " not found"))
      case Some(i) => Ok(records[i].apiKey)
  }

  /** The registry after api_edit_key sets the key of the record at `i`. */
  function SetKey(records: seq<KeyRecord>, i: nat, apiKey: string): seq<KeyRecord>
    requires i < |records|
  {
    records[i := records[i].(apiKey := apiKey)]
  }

  /** Appending a record never removes one and never deduplicates: projects
      already registered keep the key they had, and `pid` gets `apiKey` only if
      it had none. */
  lemma AddKeyLookup(records: seq<KeyRecord>, pid: int, apiKey: string, q: int)
    ensures Lookup(records + [KeyRecord(pid, apiKey)], q) ==
      if Lookup(records, q).Some? then Lookup(records, q)
      else if q == pid then Some(apiKey)
      else None
  {
    var rs := records + [KeyRecord(pid, apiKey)];
    match FirstMatch(records, q) {
      case Some(i) => FirstMatchAt(rs, q, i);
      case None =>
        if q == pid { FirstMatchAt(rs, q, |records|); }
        else { assert forall j | 0 <= j < |rs| :: rs[j].pid != q; }
    }
  }

  /** Editing the first record of `pid` keeps the list's length, order and
      projects; afterwards load_key answers the new key for `pid` and the old
      key for every other project. */
  lemma EditKeyLookup(records: seq<KeyRecord>, pid: int, apiKey: string, q: int)
    requires FirstMatch(records, pid).Some?
    ensures var rs := SetKey(records, FirstMatch(records, pid).value, apiKey);
      && |rs| == |records|
      && (forall j | 0 <= j < |rs| :: rs[j].pid == records[j].pid)
      && Lookup(rs, q) == if q == pid then Some(apiKey) else Lookup(records, q)
  {
    var i := FirstMatch(records, pid).value;
    var rs := SetKey(records, i, apiKey);
    assert forall j | 0 <= j < |rs| :: rs[j].pid == records[j].pid;
    match FirstMatch(records, q) {
      case Some(m) => FirstMatchAt(rs, q, m);
      case None => assert forall j | 0 <= j < |rs| :: rs[j].pid != q;
    }
  }

  /** The file llm_key.json. */
  class KeyFile {
    var file: FileState<seq<KeyRecord>>

    constructor (file: FileState<seq<KeyRecord>>)
      ensures this.file == file
    {
      this.file := file;
    }

    /** load_key: scan the records in order and answer the key of the first
        one for `pid`. */
    method LoadKey(pid: int) returns (r: Result<string, Failure>)
      ensures r == LoadKeyOutcome(file, pid)
    {
      var records: seq<KeyRecord>;
      match file {
        case Missing => return Err(HttpError(404, "llm_key.json file not found"));
        case Corrupt => return Err(HttpError(500, "llm_key.json file is not valid JSON"));
        case Present(rs) => records := rs;
      }
      var i := 0;
      while i < |records|
        invariant 0 <= i <= |records|
        invariant forall j | 0 <= j < i :: records[j].pid != pid
      {
        if records[i].pid == pid {
          FirstMatchAt(records, pid, i);
          return Ok(records[i].apiKey);
        }
        i := i + 1;
      }
      return Err(HttpError(404, "Key with pid " + Decimal(pid) + " not found"));
    }

    /** api_load_key: the key in the reply's message; a 404 from load_key is
        answered with RESULT_CODE 500 and its detail, anything else is raised. */
    method ApiLoadKey(pid: int) returns (r: Result<Reply, Failure>)
      ensures match LoadKeyOutcome(file, pid)
        case Ok(key) => r == Ok(Reply(200, key))
        case Err(HttpError(404, detail)) => r == Ok(Reply(500, detail))
        case Err(e) => r == Err(e)
    {
      var key := LoadKey(pid);
      match key {
        case Ok(k) => r := Ok(Reply(200, k));
        case Err(e) =>
          if e.HttpError? && e.status == 404 {
            r := Ok(Reply(500, e.detail));
          } else {
            r := Err(e);
          }
      }
    }

    /** api_add_key: append one record at the end, whatever the list holds;
        a file that cannot be read counts as an empty list. */
    method AddKey(pid: int, apiKey: string) returns (r: Reply)
      modifies this
      ensures file == Present(OrEmpty(old(file)) + [KeyRecord(pid, apiKey)])
      ensures r == Reply(200, "API key for pid " + Decimal(pid) + " added successfully")
    {
      var llmKey := OrEmpty(file);
      llmKey := llmKey + [KeyRecord(pid, apiKey)];
      file := Present(llmKey);
      r := Reply(200, "API key for pid " + Decimal(pid) + " added successfully");
    }

    /** api_edit_key: set the key of the first record of `pid` and rewrite the
        file; when no record matches, or the file cannot be read, fail and
        leave the file as it was. */
    method EditKey(pid: int, apiKey: string) returns (r: Result<Reply, Failure>)
      modifies this
      ensures old(file).Missing? ==>
        r == Err(HttpError(404, "llm_key.json file not found")) && file == old(file)
      ensures old(file).Corrupt? ==>
        r == Err(HttpError(500, "llm_key.json file is not valid JSON")) && file == old(file)
      ensures old(file).Present? ==> match FirstMatch(old(file).contents, pid)
        case None =>
          r == Err(HttpError(404, "Key with pid " + Decimal(pid) + " not found")) && file == old(file)
        case Some(i) =>
          && r == Ok(Reply(200, "API key for pid " + Decimal(pid) + " updated successfully"))
          && file == Present(SetKey(old(file).contents, i, apiKey))
    {
      var llmKey: seq<KeyRecord>;
      match file {
        case Missing => return Err(HttpError(404, "llm_key.json file not found"));
        case Corrupt => return Err(HttpError(500, "llm_key.json file is not valid JSON"));
        case Present(rs) => llmKey := rs;
      }
      ghost var original := llmKey;
      var updated := false;
      var i := 0;
      while i < |llmKey|
        invariant 0 <= i <= |llmKey|
        invariant llmKey == original
        invariant forall j | 0 <= j < i :: llmKey[j].pid != pid
      {
        if llmKey[i].pid == pid {
          FirstMatchAt(llmKey, pid, i);
          llmKey := llmKey[i := llmKey[i].(apiKey := apiKey)];
          updated := true;
          break;
        }
        i := i + 1;
      }
      if !updated {
        return Err(HttpError(404, "Key with pid " + Decimal(pid) + " not found"));
      }
      file := Present(llmKey);
      r := Ok(Reply(200, "API key for pid " + Decimal(pid) + " updated successfully"));
    }
  }
}
