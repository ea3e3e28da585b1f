# Draft store and LLM assistant plumbing of the CodeCraft PMS backend

A Dafny model of the two parts of the CodeCraft project-management backend
that hold logic of their own, rather than forwarding to a database module:

- **The project-draft store (project.py).** A team leader can save unfinished
  projects as drafts. Each leader has a folder `draft/{leader_univ_id}` with a
  counter file `draft_num` and a `draft.json` whose `"draft_id"` object maps
  `str(id)` to a draft. The handlers initialise the folder, save a new draft
  or overwrite one by id, load everything, and delete one draft with
  renumbering. `gen_project_uid` draws project ids until it finds a free one.
- **The LLM assistant (llm.py).** The Gemini keys live in `llm_key.json`, a list
  of `{pid, api_key}` records. The handlers append, look up and edit records.
  The prompt is assembled from a fixed introduction, a rendering of the
  project's online documents (`format_db_data`), the other documents, and one
  of four menu prompts.

Files are modelled as whole values that a handler reads or writes in one step.
A file is `Missing`, `Corrupt` (not valid JSON, or not an integer), or
`Present(value)`. Python dicts are insertion-ordered lists of (key, value)
pairs (module `Dict`), so the renumbering on delete follows the order in
`draft.json`, as Python's `dict` does. Draft keys are strings built by
`Text.Decimal`, Python's `str(int)`, and `Text.DecimalInjective` proves that
distinct ids get distinct keys. The draft directory and the key file are
classes whose methods change their one field. A failure is an
`HTTPException(status, detail)`, an exception the handler does not catch
(FastAPI answers 500), or one caught by an outer `except Exception` and raised
again with status 500.

Modules: `Wrappers` (Option, Result), `Text`, `Dict`, `Http` (failures, replies,
file states), `DraftProject` (project.py), `LlmKeys` and `LlmPrompt` (llm.py).

The draft numbering invariant (`DraftProject.Numbered`) says the drafts are
keyed "0", "1", ... in file order and the counter is their number. Deleting
establishes it. Saving a new draft keeps it. Updating an existing draft keeps
it. The first new draft of a leader without a folder establishes it. It is not
kept by every request: an update whose `draft_id` names no draft adds one under
that id, as the code does.

Two behaviours differ from a plain reading of the handlers. In
`api_save_draft_project`, a leader without a folder gets one initialised
(project.py:424-427) before the missing `draft_id` of an update is rejected
with 400 (project.py:437-438). So that 400 leaves a new folder behind. And when
the folder exists, the counter file is read for updates too (project.py:428-430).
So an update fails when that file is missing or unreadable.

The export and import of `.ccp` project archives is not modelled. In ccp.py
both handlers return `{}`, lines 26-34 call `router.post(...)` without `@` so
no route is registered, and line 19 uses `sys` without importing it. There is
no archive format in the code to model.

## Model

| member | source | states |
|---|---|---|
| `Text.DecimalInjective` | project.py:413 | `str` on integers is injective, so every draft id has its own key `str(id)` |
| `Text.JoinEmptyIff` | llm.py:260 | `"\n".join` of non-empty lines is empty exactly when there are no lines |
| `Text.JoinCons` | llm.py:260 | `sep.join` read from the front is the first line, one separator, then the join of the rest, so neighbouring lines are split by exactly one separator |
| `Dict.PutGet` | project.py:413 | after `d[k] = v`, `d[k]` is `v` and every other key keeps its value |
| `Dict.PutShape` | project.py:413 | `d[k] = v` keeps keys distinct, keeps an existing key in place and appends a new one |
| `Dict.RemoveGet` | project.py:500 | after `del d[k]`, `k` is gone, other keys keep their values, and the remaining values keep their order |
| `DraftProject.GenProjectUid` | project.py:117-121 | the id returned is in [10000, 99999], is not in use, and is the first unused id drawn |
| `DraftProject.BuildEntry` | project.py:393-412 | the stored draft is a dictionary whose keys are `leader_univ_id` then exactly the non-None optional fields, in source order |
| `DraftProject.BuildEntryValues` | project.py:393-412 | in the stored draft, `leader_univ_id` holds the payload's leader, each optional field holds its value when set and is absent when `None`, and no other key is present |
| `DraftProject.WriteDraftStores` | project.py:381-413 | save_draft_json puts the new draft under `str(id)` wholesale; other drafts and the counter are unchanged; a missing or undecodable draft.json counts as empty |
| `DraftProject.Enumerate` | project.py:501 | the renumbering comprehension keys the values "0".."n-1" in order, with distinct keys |
| `DraftProject.DeleteDraft` | project.py:494-508 | after a delete the removed draft is gone, the others keep their order under "0".."n-1", and the counter is n |
| `DraftProject.SaveNewKeepsNumbered` | project.py:429-435 | a new draft in a numbered folder goes last under the counter's value; the counter grows by one and the folder stays numbered |
| `DraftProject.UpdateKeepsNumbered` | project.py:436-439 | updating an existing draft replaces it in place and leaves the counter and numbering alone |
| `DraftProject.FirstSaveNumbered` | project.py:424-435 | the first new draft of a leader without a folder is the only draft, under "0", and the counter becomes 1 |
| `DraftProject.LoadFolder` | project.py:452-469 | load fails with 404 for a missing counter or draft.json and 500 for invalid JSON; otherwise it reports counter - 1 and the whole table |
| `DraftProject.LoadReportsNewest` | project.py:464-467 | after a new save (project.py:429-435) into a numbered folder, the load reply's `draft_num` is the new draft's id and its `draft_data` holds that draft under it |
| `DraftProject.DraftDirectory.InitDraftProject` | project.py:353-378 | init leaves counter 0 and exactly one draft "0" with the default values and answers 0, or answers False and changes nothing |
| `DraftProject.DraftDirectory.SaveDraftJson` | project.py:381-416 | only the leader's draft.json changes, as WriteDraft describes |
| `DraftProject.DraftDirectory.OpenCounter` | project.py:424-430 | a leader without a folder gets one initialised and id 0, or a 500 when that fails; otherwise the id is the counter file's, a missing file raises FileNotFoundError and a non-integer ValueError; no other folder changes |
| `DraftProject.DraftDirectory.SaveDraftProject` | project.py:419-440 | a new draft takes the counter's id and the counter grows by one; an update needs a draft_id (else 400) and keeps the counter; an absent folder is initialised first; only the leader's folder changes |
| `DraftProject.DraftDirectory.LoadDraftProject` | project.py:443-469 | a leader without a folder gets 404; otherwise the folder's load reply |
| `DraftProject.DraftDirectory.DeleteDraftProject` | project.py:472-510 | nothing changes when the folder, draft_id, draft.json or the draft is missing or the JSON is invalid; otherwise, after `del` (project.py:500) the key is gone from the old table, and the folder then becomes DeleteDraft's |
| `LlmKeys.FirstMatch` | llm.py:274-275 | the position returned holds the pid and no earlier record does; none only when no record holds it |
| `LlmKeys.LoadKeyOutcome` | llm.py:267-276 | load_key fails 404 on a missing file, 500 on invalid JSON, 404 when no record matches; otherwise it returns the first match's key |
| `LlmKeys.KeyFile.LoadKey` | llm.py:267-276 | the search loop answers what LoadKeyOutcome says |
| `LlmKeys.KeyFile.ApiLoadKey` | llm.py:289-297 | a 404 from load_key becomes a reply with RESULT_CODE 500; other failures are raised |
| `LlmKeys.KeyFile.AddKey` | llm.py:280-287 | exactly one record is appended at the end, without deduplication; an unreadable file counts as an empty list |
| `LlmKeys.AddKeyLookup` | llm.py:285 | after an add, registered projects keep their key and the new pid gets the new key only if it had none |
| `LlmKeys.KeyFile.EditKey` | llm.py:299-318 | only the api_key of the first matching record changes; with no match, a missing file or invalid JSON it fails and the file is untouched |
| `LlmKeys.EditKeyLookup` | llm.py:308-313 | an edit keeps length, order and pids; afterwards load_key gives the new key for that pid and the old key for all others |
| `LlmPrompt.FormatDbData` | llm.py:242-260 | the rendering is the "\n"-join of one `label: value` line per present key, in the fixed section order |
| `LlmPrompt.SectionLinesFacts` | llm.py:244-259 | there are no lines exactly when no section key is present, and no line is empty |
| `LlmPrompt.SectionLinesOnlySections` | llm.py:244-259 | keys other than the eight sections do not affect the rendering |
| `LlmPrompt.FormatEmptyIff` | llm.py:242-260 | the rendering is "" exactly when none of the eight keys is present |
| `LlmPrompt.LlmInitLayout` | llm.py:322-327 | llm_init's text opens with the online header and ends with the other header and documents; the headers are adjacent exactly when no section is present |
| `LlmPrompt.SelectPrompt` | llm.py:340-344 | a menu value is accepted iff 0 <= menu < 4 and selects that prompt; otherwise 400, or TypeError for a missing menu |
| `LlmPrompt.FinalPrompt` | llm.py:346 | the prompt is `prompt_init`, a blank line, llm_init's text and the selected prompt, each at its own offset |
| `LlmPrompt.FinalPromptLayout` | llm.py:346 | the prompt starts with prompt_init and the online header and ends with the other documents and the selected prompt |
| `LlmPrompt.ApiInteractGpt` | llm.py:329-352 | a key failure becomes 500 "Key exception occurred.", re-raised as 500; a bad menu is re-raised as 500; otherwise the first match's key and the final prompt |

## Left out

- The wording of `prompt_init` and of the four `PROMPTS` is not reproduced. The model takes them as a string and a list of exactly four strings (`LlmPrompt.PromptList`). The section labels and the two headers are reproduced.
- The Gemini call (`genai.configure`, `generate_content`, the model name) is left out. `ApiInteractGpt` returns the key and prompt it would send.
- `db_data_collect` and `output_data_collect` call database modules that are not part of this model. Their results are parameters, as is Python's `str` of a database value. The 500 for an unparsable database reply is not modelled.
- `DraftProject.DraftDirectory.InitDraftProject`: a file-system failure is a flag. The model then leaves the directory unchanged, so it does not capture what was already written before the failing step.
- JSON files of an unexpected shape are not modelled: a draft.json without `"draft_id"`, an `llm_key.json` that is not a list, records without `pid`. JSON formatting (`indent`, `ensure_ascii`) is not modelled either.
- The counter file's text is modelled as an integer or as unreadable. Python's `int()` parsing details (whitespace, signs, underscores) are not modelled.
- `DraftProject.GenProjectUid`: random draws are a finite sequence that contains an unused id, and `project_DB.is_uid_exists` is a set of ids in use. The endless loop when every id is taken is not modelled.
- Two requests for the same leader or the same key file at once could interleave their reads and writes. Each handler is modelled as one atomic step.
- `api_project_init` and the other handlers in project.py, and output.py, wbs.py, task.py, grade.py, account.py, push.py, docs_converter.py, ccp.py, main.py and the rest, are not part of this model. They forward to database modules or remote servers, or they are stubs.
- Log and `print` output is not modelled.
