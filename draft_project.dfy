/** The per-leader store of unsaved project drafts kept by project.py.

    Each leader (identified by the student number `leader_univ_id`) owns a
    folder `draft/{leader}` holding two files: `draft_num`, a counter, and
    `draft.json`, whose `"draft_id"` object maps `str(id)` to one draft. A
    draft is a JSON object with `leader_univ_id` and whichever optional
    project fields the client sent. */
module DraftProject {
  import opened Wrappers
  import opened Text
  import opened Dict
  import opened Http

  /** A JSON scalar stored in a draft. */
  datatype Value = IntValue(i: int) | TextValue(s: string)

  /** One draft: a JSON object from field name to value. */
  type Entry = Dict<Value>

  /** The `"draft_id"` object of draft.json: `str(id)` to draft. */
  type Table = Dict<Entry>

  /** The folder `draft/{leader}`: its `draft_num` counter and its draft table. */
  datatype Folder = Folder(counter: FileState<int>, table: FileState<Table>)

  /** The request body `DraftPayload`; every field but the leader is optional. */
  datatype DraftPayload = DraftPayload(
    leaderUnivId: int,
    isNew: Option<bool>,
    draftId: Option<int>,
    pname: Option<string>,
    pdetails: Option<string>,
    psize: Option<int>,
    pperiod: Option<string>,
    pmm: Option<int>,
    univId: Option<string>,
    profId: Option<int>,
    subject: Option<int>)

  /** The reply of the load handler: `draft_num` and `draft_data`. */
  datatype LoadedDrafts = LoadedDrafts(draftNum: int, draftData: Table)

  const LeaderField := "leader_univ_id"

  /** The optional draft fields, in the order save_draft_json copies them. */
  const OptionalFieldNames: seq<string> :=
    ["pname", "pdetails", "psize", "pperiod", "pmm", "univ_id", "prof_id", "subject"]

  /** The draft written by init_draft_project: every field, at its empty value. */
  const DefaultEntry: Entry := [
    (LeaderField, IntValue(0)), ("pname", TextValue("")), ("pdetails", TextValue("")),
    ("psize", IntValue(0)), ("pperiod", TextValue("")), ("pmm", IntValue(0)),
    ("univ_id", TextValue("")), ("prof_id", IntValue(0)), ("subject", IntValue(0))]

  /** The folder init_draft_project leaves behind: counter 0 and one default draft "0". */
  const InitialFolder := Folder(Present(0), Present([("0", DefaultEntry)]))

  function IntField(o: Option<int>): Option<Value> {
    match o
    case None => None
    case Some(n) => Some(IntValue(n))
  }

  function TextField(o: Option<string>): Option<Value> {
    match o
    case None => None
    case Some(s) => Some(TextValue(s))
  }

  /** The optional payload fields paired with their JSON names, in copy order. */
  function OptionalFields(p: DraftPayload): (fs: seq<(string, Option<Value>)>)
    ensures |fs| == |OptionalFieldNames|
    ensures forall i | 0 <= i < |fs| :: fs[i].0 == OptionalFieldNames[i]
  {
    [("pname", TextField(p.pname)), ("pdetails", TextField(p.pdetails)),
     ("psize", IntField(p.psize)), ("pperiod", TextField(p.pperiod)),
     ("pmm", IntField(p.pmm)), ("univ_id", TextField(p.univId)),
     ("prof_id", IntField(p.profId)), ("subject", IntField(p.subject))]
  }

  /** The names of the fields that are set, in order. */
  function PresentNames(fs: seq<(string, Option<Value>)>): seq<string> {
    if fs == [] then []
    else (if fs[0].1.Some? then [fs[0].0] else []) + PresentNames(fs[1..])
  }

  /** `entry[name] = value` when the field is not `None`. */
  function CopyField(e: Entry, f: (string, Option<Value>)): Entry {
    if f.1.Some? then Put(e, f.0, f.1.value) else e
  }

  /** `entry[name] = value` for every field that is not `None`, in order. */
  function PutPresent(e: Entry, fs: seq<(string, Option<Value>)>): Entry
    decreases |fs|
  {
    if fs == [] then e else PutPresent(CopyField(e, fs[0]), fs[1..])
  }

  predicate DistinctNames(fs: seq<(string, Option<Value>)>) {
    forall i, j | 0 <= i < j < |fs| :: fs[i].0 != fs[j].0
  }

  /** Copying one field sets that field if it is set and leaves every other key alone. */
  lemma CopyFieldGet(e: Entry, f: (string, Option<Value>))
    ensures f.1.Some? ==> Get(CopyField(e, f), f.0) == f.1
    ensures forall k | k != f.0 :: Get(CopyField(e, f), k) == Get(e, k)
  {
    if f.1.Some? { PutGet(e, f.0, f.1.value); }
  }

  /** Copying a field not yet in a dictionary keeps it one and appends the
      name when the field is set. */
  lemma CopyFieldKeys(e: Entry, f: (string, Option<Value>))
    requires IsDict(e) && f.0 !in Keys(e)
    ensures IsDict(CopyField(e, f))
    ensures Keys(CopyField(e, f)) == Keys(e) + (if f.1.Some? then [f.0] else [])
  {
    if f.1.Some? { PutShape(e, f.0, f.1.value); }
  }

  /** Copying fields never touches a key outside the field list. */
  lemma {:induction false} PutPresentOther(e: Entry, fs: seq<(string, Option<Value>)>, k: string)
    requires k !in Keys(fs)
    ensures Get(PutPresent(e, fs), k) == Get(e, k)
    decreases |fs|
  {
    if fs != [] {
      CopyFieldGet(e, fs[0]);
      assert Keys(fs[1..]) == Keys(fs)[1..];
      PutPresentOther(CopyField(e, fs[0]), fs[1..], k);
    }
  }

  /** A field absent from the entry ends up holding exactly what the list says:
      its value when set, nothing when `None`. */
  lemma {:induction false} PutPresentField(e: Entry, fs: seq<(string, Option<Value>)>, i: nat)
    requires DistinctNames(fs) && i < |fs|
    requires Get(e, fs[i].0) == None
    ensures Get(PutPresent(e, fs), fs[i].0) == fs[i].1
    decreases |fs|
  {
    var e' := CopyField(e, fs[0]);
    CopyFieldGet(e, fs[0]);
    assert Keys(fs[1..]) == Keys(fs)[1..];
    if i == 0 {
      PutPresentOther(e', fs[1..], fs[0].0);
    } else {
      PutPresentField(e', fs[1..], i - 1);
    }
  }

  /** Copying fields that are not yet in the entry appends the set ones, in
      order, and keeps the entry a dictionary. */
  lemma {:induction false} PutPresentKeys(e: Entry, fs: seq<(string, Option<Value>)>)
    requires IsDict(e) && DistinctNames(fs)
    requires forall i | 0 <= i < |fs| :: fs[i].0 !in Keys(e)
    ensures IsDict(PutPresent(e, fs))
    ensures Keys(PutPresent(e, fs)) == Keys(e) + PresentNames(fs)
    decreases |fs|
  {
    if fs != [] {
      var e' := CopyField(e, fs[0]);
      var set0: seq<string> := if fs[0].1.Some? then [fs[0].0] else [];
      CopyFieldStep(e, fs);
      PutPresentKeys(e', fs[1..]);
      AppendAssoc(Keys(e), set0, PresentNames(fs[1..]));
    }
  }

  /** Sequence concatenation is associative. Stated on its own so that
      PutPresentKeys can use it without the solver rediscovering it among
      that lemma's other facts. */
  lemma AppendAssoc<T>(a: seq<T>, b: seq<T>, c: seq<T>)
    ensures (a + b) + c == a + (b + c)
  {
  }

  /** One step of PutPresentKeys: the first field is copied and the rest of
      the list still meets the lemma's requirements. */
  lemma CopyFieldStep(e: Entry, fs: seq<(string, Option<Value>)>)
    requires IsDict(e) && DistinctNames(fs) && fs != []
    requires forall i | 0 <= i < |fs| :: fs[i].0 !in Keys(e)
    ensures IsDict(CopyField(e, fs[0]))
    ensures Keys(CopyField(e, fs[0])) == Keys(e) + (if fs[0].1.Some? then [fs[0].0] else [])
    ensures DistinctNames(fs[1..])
    ensures forall i | 0 <= i < |fs[1..]| :: fs[1..][i].0 !in Keys(CopyField(e, fs[0]))
  {
    CopyFieldKeys(e, fs[0]);
    var rest := fs[1..];
    forall i | 0 <= i < |rest| ensures rest[i].0 !in Keys(CopyField(e, fs[0])) {
      assert rest[i] == fs[i + 1];
    }
  }

  /** The optional fields have distinct names, none of them `leader_univ_id`. */
  lemma OptionalFieldsDistinct(p: DraftPayload)
    ensures DistinctNames(OptionalFields(p))
    ensures Keys(OptionalFields(p)) == OptionalFieldNames
    ensures LeaderField !in OptionalFieldNames
  {
  }

  /** Starting from `leader_univ_id` alone and copying distinct fields other
      than it gives a dictionary whose keys are the leader, then the set
      fields in order. */
  lemma LeaderThenFieldsKeys(leader: int, fs: seq<(string, Option<Value>)>)
    requires DistinctNames(fs) && LeaderField !in Keys(fs)
    ensures IsDict(PutPresent([(LeaderField, IntValue(leader))], fs))
    ensures Keys(PutPresent([(LeaderField, IntValue(leader))], fs)) == [LeaderField] + PresentNames(fs)
  {
    var start: Entry := [(LeaderField, IntValue(leader))];
    assert Keys(start) == [LeaderField];
    forall i | 0 <= i < |fs| ensures fs[i].0 !in Keys(start) {
      assert Keys(fs)[i] == fs[i].0;
    }
    PutPresentKeys(start, fs);
  }

  /** In the same entry, the leader is kept, every field holds what the list
      says, and no other key is present. */
  lemma LeaderThenFieldsValues(leader: int, fs: seq<(string, Option<Value>)>)
    requires DistinctNames(fs) && LeaderField !in Keys(fs)
    ensures Get(PutPresent([(LeaderField, IntValue(leader))], fs), LeaderField) == Some(IntValue(leader))
    ensures forall i | 0 <= i < |fs| ::
      Get(PutPresent([(LeaderField, IntValue(leader))], fs), fs[i].0) == fs[i].1
    ensures forall k | k != LeaderField && k !in Keys(fs) ::
      Get(PutPresent([(LeaderField, IntValue(leader))], fs), k) == None
  {
    var start: Entry := [(LeaderField, IntValue(leader))];
    SingleGet(LeaderField, IntValue(leader), LeaderField);
    PutPresentOther(start, fs, LeaderField);
    forall i | 0 <= i < |fs| ensures Get(PutPresent(start, fs), fs[i].0) == fs[i].1 {
      assert Keys(fs)[i] == fs[i].0;
      SingleGet(LeaderField, IntValue(leader), fs[i].0);
      PutPresentField(start, fs, i);
    }
    forall k | k != LeaderField && k !in Keys(fs) ensures Get(PutPresent(start, fs), k) == None {
      SingleGet(LeaderField, IntValue(leader), k);
      PutPresentOther(start, fs, k);
    }
  }

  /** The draft save_draft_json stores for a payload: `leader_univ_id`, then
      exactly the optional fields that are not `None`, in the order of the
      source. */
  function BuildEntry(p: DraftPayload): (e: Entry)
    ensures IsDict(e)
    ensures Keys(e) == [LeaderField] + PresentNames(OptionalFields(p))
  {
    OptionalFieldsDistinct(p);
    LeaderThenFieldsKeys(p.leaderUnivId, OptionalFields(p));
    PutPresent([(LeaderField, IntValue(p.leaderUnivId))], OptionalFields(p))
  }

  /** Each field of the stored draft holds the payload's value: the leader
      under `leader_univ_id`, every optional field its value when set and
      nothing when `None`, and no other key anything. */
  lemma BuildEntryValues(p: DraftPayload)
    ensures Get(BuildEntry(p), LeaderField) == Some(IntValue(p.leaderUnivId))
    ensures forall i | 0 <= i < |OptionalFieldNames| ::
      Get(BuildEntry(p), OptionalFieldNames[i]) == OptionalFields(p)[i].1
    ensures forall k | k != LeaderField && k !in OptionalFieldNames :: Get(BuildEntry(p), k) == None
  {
    OptionalFieldsDistinct(p);
    LeaderThenFieldsValues(p.leaderUnivId, OptionalFields(p));
  }

  /** The folder after save_draft_json stores the payload's draft under `str(id)`. */
  function WriteDraft(f: Folder, id: int, p: DraftPayload): Folder {
    f.(table := Present(Put(OrEmpty(f.table), Decimal(id), BuildEntry(p))))
  }

  /** save_draft_json replaces the draft under `str(id)` wholesale with the
      payload's draft and leaves every other draft as it was; a missing or
      undecodable draft.json counts as an empty table. */
  lemma WriteDraftStores(f: Folder, id: int, p: DraftPayload)
    ensures WriteDraft(f, id, p).counter == f.counter
    ensures Get(WriteDraft(f, id, p).table.contents, Decimal(id)) == Some(BuildEntry(p))
    ensures forall k | k != Decimal(id) ::
      Get(WriteDraft(f, id, p).table.contents, k) == Get(OrEmpty(f.table), k)
  {
    PutGet(OrEmpty(f.table), Decimal(id), BuildEntry(p));
  }

  /** The folder after a new draft is saved: the draft goes under the counter's
      value, and the counter moves on by one. */
  function SaveNew(f: Folder, id: int, p: DraftPayload): Folder {
    WriteDraft(f, id, p).(counter := Present(id + 1))
  }

  /** The table and counter are numbered: drafts are keyed "0", "1", ... in
      insertion order, and the counter is their number. */
  predicate Numbered(f: Folder) {
    && f.table.Present?
    && f.counter == Present(|f.table.contents|)
    && forall i | 0 <= i < |f.table.contents| :: f.table.contents[i].0 == Decimal(i)
  }

  /** `{str(idx): v for idx, v in enumerate(vs)}`. */
  function Enumerate(vs: seq<Entry>): (t: Table)
    ensures |t| == |vs| && IsDict(t)
    ensures Values(t) == vs
    ensures forall i | 0 <= i < |t| :: t[i].0 == Decimal(i)
  {
    var t := seq(|vs|, i requires 0 <= i < |vs| => (Decimal(i), vs[i]));
    forall i, j | 0 <= i < j < |t| ensures t[i].0 != t[j].0 {
      if t[i].0 == t[j].0 { DecimalInjective(i, j); }
    }
    t
  }

  /** The folder after api_delete_draft_project removes the draft under key
      `k`: the other drafts, in their old order, renumbered from "0", and the
      counter set to how many there are. */
  function DeleteDraft(t: Table, k: string): (f: Folder)
    requires Contains(t, k)
    ensures Numbered(f)
    ensures |f.table.contents| == |t| - 1
    ensures var i := Find(t, k).value;
      Values(f.table.contents) == Values(t)[..i] + Values(t)[i + 1..]
  {
    var i := Find(t, k).value;
    var rest := Remove(t, k);
    assert Values(rest) == Values(t)[..i] + Values(t)[i + 1..];
    var renumbered := Enumerate(Values(rest));
    Folder(Present(|renumbered|), Present(renumbered))
  }

  /** In a numbered table the key of the draft at position `i` is `str(i)` and
      no other position holds it. */
  lemma NumberedFind(t: Table, i: int)
    requires forall j | 0 <= j < |t| :: t[j].0 == Decimal(j)
    ensures 0 <= i < |t| ==> Find(t, Decimal(i)) == Some(i)
    ensures !(0 <= i < |t|) ==> Find(t, Decimal(i)) == None
  {
    forall j | 0 <= j < |t| && t[j].0 == Decimal(i) ensures j == i {
      DecimalInjective(j, i);
    }
    if 0 <= i < |t| { FindFirst(t, Decimal(i), i); }
  }

  /** Saving a new draft into a numbered folder appends it under the next
      number and keeps the folder numbered. */
  lemma SaveNewKeepsNumbered(f: Folder, p: DraftPayload)
    requires Numbered(f)
    ensures var n := |f.table.contents|;
      && Numbered(SaveNew(f, n, p))
      && SaveNew(f, n, p).table.contents == f.table.contents + [(Decimal(n), BuildEntry(p))]
  {
    NumberedFind(f.table.contents, |f.table.contents|);
  }

  /** Updating a draft that exists in a numbered folder replaces it in place
      and keeps the folder numbered. */
  lemma UpdateKeepsNumbered(f: Folder, id: int, p: DraftPayload)
    requires Numbered(f) && 0 <= id < |f.table.contents|
    ensures Numbered(WriteDraft(f, id, p))
    ensures WriteDraft(f, id, p).table.contents
         == f.table.contents[id := (Decimal(id), BuildEntry(p))]
  {
    NumberedFind(f.table.contents, id);
  }

  /** The first new draft of a leader without a folder replaces the default
      draft "0" of the freshly initialised folder: it is the only draft, and
      the counter is 1. */
  lemma FirstSaveNumbered(p: DraftPayload)
    ensures SaveNew(InitialFolder, 0, p) == Folder(Present(1), Present([("0", BuildEntry(p))]))
    ensures Numbered(SaveNew(InitialFolder, 0, p))
  {
    assert Decimal(0) == "0";
    FindFirst([("0", DefaultEntry)], "0", 0);
    assert Put([("0", DefaultEntry)], "0", BuildEntry(p)) == [("0", BuildEntry(p))];
  }

  /** The reply of api_load_draft_project for an existing folder. The counter
      file is read first, then draft.json; the counter text is converted to an
      integer only when the reply is built. */
  function LoadFolder(f: Folder): (r: Result<LoadedDrafts, Failure>)
    ensures r.Ok? <==> f.counter.Present? && f.table.Present?
    ensures r.Ok? ==> r.value == LoadedDrafts(f.counter.contents - 1, f.table.contents)
  {
    if f.counter.Missing? then Err(HttpError(404, "draft_num file not found"))
    else if f.table.Missing? then Err(HttpError(404, "draft.json file not found"))
    else if f.table.Corrupt? then Err(HttpError(500, "Invalid JSON format in draft.json"))
    else if f.counter.Corrupt? then Err(Unhandled("ValueError"))
    else Ok(LoadedDrafts(f.counter.contents - 1, f.table.contents))
  }

  /** In a numbered folder with drafts, the `draft_num` that load reports is
      the id of the newest draft; after a new save it names the draft just
      saved. */
  lemma LoadReportsNewest(f: Folder, p: DraftPayload)
    requires Numbered(f)
    ensures var n := |f.table.contents|;
      var r := LoadFolder(SaveNew(f, n, p));
      && r.Ok? && r.value.draftNum == n
      && Get(r.value.draftData, Decimal(r.value.draftNum)) == Some(BuildEntry(p))
  {
    var n := |f.table.contents|;
    SaveNewKeepsNumbered(f, p);
    NumberedFind(SaveNew(f, n, p).table.contents, n);
  }

  /** gen_project_uid: draw ids from [10000, 99999] until one is not in use,
      and answer that one. `draws` are the successive results of
      `random.randint(10000, 99999)` up to the first unused id (the source
      keeps drawing until there is one); `inUse` is the set of ids the
      project database already holds. */
  method GenProjectUid(draws: seq<int>, inUse: set<int>) returns (uid: int)
    requires forall i | 0 <= i < |draws| :: 10000 <= draws[i] <= 99999
    requires exists i | 0 <= i < |draws| :: draws[i] !in inUse
    ensures 10000 <= uid <= 99999 && uid !in inUse
    ensures exists k | 0 <= k < |draws| ::
      uid == draws[k] && forall j | 0 <= j < k :: draws[j] in inUse
  {
    var k := 0;
    while draws[k] in inUse
      invariant 0 <= k < |draws|
      invariant forall j | 0 <= j < k :: draws[j] in inUse
      decreases |draws| - k
    {
      k := k + 1;
    }
    uid := draws[k];
  }

  /** The `draft/` directory: each leader's folder, by leader id. A leader
      without a folder is absent from the map. Every handler works on the
      folder of the payload's `leader_univ_id` only. */
  class DraftDirectory {
    var folders: map<int, Folder>

    /** Every draft.json that can be read holds a dictionary. */
    ghost predicate Valid()
      reads this
    {
      forall L | L in folders && folders[L].table.Present? :: IsDict(folders[L].table.contents)
    }

    constructor (folders: map<int, Folder>)
      requires forall L | L in folders && folders[L].table.Present? :: IsDict(folders[L].table.contents)
      ensures Valid()
      ensures this.folders == folders
    {
      this.folders := folders;
    }

    /** init_draft_project: create the folder (keeping one that exists), write
        counter 0 and a draft.json holding only the default draft "0", and
        answer 0; if the file system fails, answer `False` (here `None`). */
    method InitDraftProject(univId: int, ioOk: bool) returns (r: Option<int>)
      requires Valid()
      modifies this
      ensures Valid()
      ensures ioOk ==> r == Some(0) && folders == old(folders)[univId := InitialFolder]
      ensures !ioOk ==> r == None && folders == old(folders)
    {
      if !ioOk {
        return None;
      }
      folders := folders[univId := InitialFolder];
      r := Some(0);
    }

    /** save_draft_json: store the payload's draft under `str(draftId)` in the
        leader's draft.json, replacing any draft there; the counter and every
        other folder stay as they were. */
    method SaveDraftJson(univId: int, draftId: int, p: DraftPayload)
      requires Valid() && univId in folders
      modifies this
      ensures Valid()
      ensures folders == old(folders)[univId := WriteDraft(old(folders)[univId], draftId, p)]
    {
      var f := folders[univId];
      var projectData: Table;
      match f.table {
        case Present(t) => projectData := t;
        case _ => projectData := [];
      }
      var entry := BuildEntry(p);
      PutShape(projectData, Decimal(draftId), entry);
      projectData := Put(projectData, Decimal(draftId), entry);
      folders := folders[univId := f.(table := Present(projectData))];
    }

    /** The first half of api_save_draft_project: make sure the leader has a
        folder (initialising one, with id 0, when there is none), then read
        the id from its counter file. */
    method OpenCounter(L: int, ioOk: bool) returns (r: Result<int, Failure>)
      requires Valid()
      modifies this
      ensures Valid()
      ensures
        if L !in old(folders) && !ioOk then
          r == Err(HttpError(500, "Failed to init draft project")) && folders == old(folders)
        else if L in old(folders) && old(folders)[L].counter.Missing? then
          r == Err(Unhandled("FileNotFoundError")) && folders == old(folders)
        else if L in old(folders) && old(folders)[L].counter.Corrupt? then
          r == Err(Unhandled("ValueError")) && folders == old(folders)
        else
          var f := if L in old(folders) then old(folders)[L] else InitialFolder;
          && f.counter.Present?
          && r == Ok(f.counter.contents)
          && folders == old(folders)[L := f]
    {
      if L !in folders {
        var init := InitDraftProject(L, ioOk);
        if init.None? {
          return Err(HttpError(500, "Failed to init draft project"));
        }
        return Ok(init.value);
      }
      match folders[L].counter {
        case Missing => return Err(Unhandled("FileNotFoundError"));
        case Corrupt => return Err(Unhandled("ValueError"));
        case Present(n) => return Ok(n);
      }
    }

    /** api_save_draft_project. A leader without a folder gets one first (id 0);
        otherwise the id is read from the counter file, which must exist and
        hold an integer. A new draft (`new` true) is stored under that id and
        the counter moves on by one; an update needs a `draft_id` and leaves
        the counter alone. Only the leader's folder changes. */
    method SaveDraftProject(p: DraftPayload, ioOk: bool) returns (r: Result<Reply, Failure>)
      requires Valid()
      modifies this
      ensures Valid()
      ensures var L := p.leaderUnivId;
        if L !in old(folders) && !ioOk then
          r == Err(HttpError(500, "Failed to init draft project")) && folders == old(folders)
        else if L in old(folders) && old(folders)[L].counter.Missing? then
          r == Err(Unhandled("FileNotFoundError")) && folders == old(folders)
        else if L in old(folders) && old(folders)[L].counter.Corrupt? then
          r == Err(Unhandled("ValueError")) && folders == old(folders)
        else
          var f := if L in old(folders) then old(folders)[L] else InitialFolder;
          if p.isNew == Some(true) then
            && r == Ok(Reply(200, "Success"))
            && folders == old(folders)[L := SaveNew(f, f.counter.contents, p)]
          else if p.draftId.None? then
            && r == Err(HttpError(400, "Draft ID is required for updating"))
            && folders == old(folders)[L := f]
          else
            && r == Ok(Reply(200, "Success"))
            && folders == old(folders)[L := WriteDraft(f, p.draftId.value, p)]
    {
      var L := p.leaderUnivId;
      var counter := OpenCounter(L, ioOk);
      if counter.Err? {
        return Err(counter.error);
      }
      var id := counter.value;
      if p.isNew == Some(true) {
        SaveDraftJson(L, id, p);
        folders := folders[L := folders[L].(counter := Present(id + 1))];
      } else {
        if p.draftId.None? {
          return Err(HttpError(400, "Draft ID is required for updating"));
        }
        SaveDraftJson(L, p.draftId.value, p);
      }
      r := Ok(Reply(200, "Success"));
    }

    /** api_load_draft_project: the leader's counter minus one and the whole
        draft table, or why they cannot be read. */
    function LoadDraftProject(p: DraftPayload): (r: Result<LoadedDrafts, Failure>)
      reads this
      ensures p.leaderUnivId !in folders ==> r == Err(HttpError(404, "Draft folder not found"))
      ensures p.leaderUnivId in folders ==> r == LoadFolder(folders[p.leaderUnivId])
    {
      if p.leaderUnivId !in folders then Err(HttpError(404, "Draft folder not found"))
      else LoadFolder(folders[p.leaderUnivId])
    }

    /** api_delete_draft_project: remove the draft `str(draft_id)`, renumber
        the others "0".."n-1" in their order in the file, and set the counter
        to n. Nothing changes when the folder, the id, draft.json or the draft
        is missing, or draft.json is not valid JSON. */
    method DeleteDraftProject(p: DraftPayload) returns (r: Result<Reply, Failure>)
      requires Valid()
      modifies this
      ensures Valid()
      ensures var L := p.leaderUnivId;
        if L !in old(folders) then
          r == Err(HttpError(404, "Draft folder not found")) && folders == old(folders)
        else if p.draftId.None? then
          r == Err(HttpError(400, "Draft ID is required for deletion")) && folders == old(folders)
        else match old(folders)[L].table
          case Missing =>
            r == Err(HttpError(404, "draft.json file not found")) && folders == old(folders)
          case Corrupt =>
            r == Err(HttpError(500, "Invalid JSON format in draft.json")) && folders == old(folders)
          case Present(t) =>
            if !Contains(t, Decimal(p.draftId.value)) then
              r == Err(HttpError(404, "Draft ID not found")) && folders == old(folders)
            else
              && r == Ok(Reply(200, "Draft deleted successfully"))
              && Get(Remove(t, Decimal(p.draftId.value)), Decimal(p.draftId.value)) == None
              && folders == old(folders)[L := DeleteDraft(t, Decimal(p.draftId.value))]
    {
      var L := p.leaderUnivId;
      if L !in folders {
        return Err(HttpError(404, "Draft folder not found"));
      }
      if p.draftId.None? {
        return Err(HttpError(400, "Draft ID is required for deletion"));
      }
      var draftData: Table;
      match folders[L].table {
        case Missing => return Err(HttpError(404, "draft.json file not found"));
        case Corrupt => return Err(HttpError(500, "Invalid JSON format in draft.json"));
        case Present(t) => draftData := t;
      }
      var key := Decimal(p.draftId.value);
      if !Contains(draftData, key) {
        return Err(HttpError(404, "Draft ID not found"));
      }
      var rest := Remove(draftData, key);
      RemoveGet(draftData, key);
      var sorted := Enumerate(Values(rest));
      folders := folders[L := folders[L].(table := Present(sorted))];
      folders := folders[L := folders[L].(counter := Present(|sorted|))];
      r := Ok(Reply(200, "Draft deleted successfully"));
    }
  }
}
