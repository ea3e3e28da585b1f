/** How llm.py assembles the prompt it sends to Gemini: the fixed
    introduction `prompt_init`, the project's online documents rendered by
    format_db_data, its other documents, and one of four menu prompts. */
module LlmPrompt {
  import opened Wrappers
  import opened Text
  import opened Http
  import LlmKeys

  /** The keys of the project data that format_db_data renders, each with its
      label, in the order it renders them. */
  const Sections: seq<(string, string)> := [
    ("project", "프로젝트 정보"), ("work_list", "업무"), ("progress_list", "WBS"),
    ("meeting_list", "회의록"), ("summary_list", "개요서"),
    ("requirement_list", "요구사항 명세서"), ("test_list", "테스트케이스"),
    ("report_list", "보고서")]

  const OnlineHeader := "[프로젝트의 온라인 산출물]\n"
  const OtherHeader := "\n\n[기타 산출물]\n"

  /** The menu prompts `PROMPTS`: there are exactly four. */
  type PromptList = s: seq<string> | |s| == 4 witness ["", "", "", ""]

  /** The request body `llm_payload`. */
  datatype LlmPayload = LlmPayload(pid: int, prompt: Option<string>, menu: Option<int>)

  /** What api_interact_gpt hands to Gemini: the project's key and the prompt. */
  datatype GeminiRequest = GeminiRequest(apiKey: string, prompt: string)

  /** The `label: value` line of one section. */
  function Line<V>(data: map<string, V>, show: V -> string, sec: (string, string)): string
    requires sec.0 in data
  {
    sec.1 + ": " + show(data[sec.0])
  }

  /** The lines rendered for the sections `secs`: one per section whose key is
      in `data`, in the order of `secs`. `show` is Python's `str` of a value. */
  function SectionLines<V>(data: map<string, V>, show: V -> string, secs: seq<(string, string)>)
    : seq<string>
    decreases |secs|
  {
    if secs == [] then []
    else
      var last := secs[|secs| - 1];
      SectionLines(data, show, secs[..|secs| - 1]) + (if last.0 in data then [Line(data, show, last)] else [])
  }

  /** A section is rendered exactly when its key is present; every line is
      the non-empty `label: value` of a present section, in section order. */
  lemma {:induction false} SectionLinesFacts<V>(data: map<string, V>, show: V -> string, secs: seq<(string, string)>)
    requires forall i | 0 <= i < |secs| :: secs[i].1 != ""
    ensures SectionLines(data, show, secs) == [] <==> forall i | 0 <= i < |secs| :: secs[i].0 !in data
    ensures forall j | 0 <= j < |SectionLines(data, show, secs)| :: SectionLines(data, show, secs)[j] != ""
    decreases |secs|
  {
    if secs != [] {
      var init := secs[..|secs| - 1];
      SectionLinesFacts(data, show, init);
      var lines := SectionLines(data, show, secs);
      forall j | 0 <= j < |lines| ensures lines[j] != "" {
        if j >= |SectionLines(data, show, init)| {
          assert lines[j] == Line(data, show, secs[|secs| - 1]);
        }
      }
      if forall i | 0 <= i < |secs| :: secs[i].0 !in data {
        assert forall i | 0 <= i < |init| :: init[i].0 !in data by {
          forall i | 0 <= i < |init| ensures init[i].0 !in data { assert init[i] == secs[i]; }
        }
      } else {
        var i :| 0 <= i < |secs| && secs[i].0 in data;
        if i < |init| {
          assert init[i] == secs[i];
        }
      }
    }
  }

  /** Only the eight section keys matter: two data sets that agree on them
      render alike, whatever else they hold. */
  lemma {:induction false} SectionLinesOnlySections<V>(
    data: map<string, V>, data': map<string, V>, show: V -> string, secs: seq<(string, string)>)
    requires forall i | 0 <= i < |secs| ::
      (secs[i].0 in data <==> secs[i].0 in data') &&
      (secs[i].0 in data ==> data[secs[i].0] == data'[secs[i].0])
    ensures SectionLines(data, show, secs) == SectionLines(data', show, secs)
    decreases |secs|
  {
    if secs != [] {
      var init := secs[..|secs| - 1];
      forall i | 0 <= i < |init|
        ensures (init[i].0 in data <==> init[i].0 in data') &&
                (init[i].0 in data ==> data[init[i].0] == data'[init[i].0])
      {
        assert init[i] == secs[i];
      }
      SectionLinesOnlySections(data, data', show, init);
    }
  }

  /** format_db_data: append the line of every present section, in the fixed
      order, then join the lines with "\n". */
  method FormatDbData<V>(data: map<string, V>, show: V -> string) returns (s: string)
    ensures s == Join("\n", SectionLines(data, show, Sections))
  {
    var parts: seq<string> := [];
    var i := 0;
    while i < |Sections|
      invariant 0 <= i <= |Sections|
      invariant parts == SectionLines(data, show, Sections[..i])
    {
      var sec := Sections[i];
      if sec.0 in data {
        parts := parts + [sec.1 + ": " + show(data[sec.0])];
      }
      assert Sections[..i + 1][..i] == Sections[..i];
      i := i + 1;
    }
    assert Sections[..|Sections|] == Sections;
    s := Join("\n", parts);
  }

  /** The rendering of the project data is empty exactly when none of the
      eight section keys is present. */
  lemma FormatEmptyIff<V>(data: map<string, V>, show: V -> string)
    ensures Join("\n", SectionLines(data, show, Sections)) == ""
        <==> forall i | 0 <= i < |Sections| :: Sections[i].0 !in data
  {
    SectionLinesFacts(data, show, Sections);
    JoinEmptyIff("\n", SectionLines(data, show, Sections));
  }

  /** llm_init: the online documents under their header, then the other
      documents under theirs. `otherDocs` is `str` of what the output
      database returns. */
  function LlmInit<V>(data: map<string, V>, show: V -> string, otherDocs: string): string {
    OnlineHeader + Join("\n", SectionLines(data, show, Sections)) + OtherHeader + otherDocs
  }

  /** llm_init's text opens with the online-documents header and closes with
      the other documents under their header; the two headers stand next to
      each other exactly when no section key is present. */
  lemma LlmInitLayout<V>(data: map<string, V>, show: V -> string, otherDocs: string)
    ensures var t := LlmInit(data, show, otherDocs);
      var tail := OtherHeader + otherDocs;
      && |t| >= |OnlineHeader| + |tail|
      && t[..|OnlineHeader|] == OnlineHeader
      && t[|t| - |tail|..] == tail
    ensures LlmInit(data, show, otherDocs) == OnlineHeader + OtherHeader + otherDocs
        <==> forall i | 0 <= i < |Sections| :: Sections[i].0 !in data
  {
    var body := Join("\n", SectionLines(data, show, Sections));
    var t := LlmInit(data, show, otherDocs);
    var tail := OtherHeader + otherDocs;
    assert t == OnlineHeader + body + tail;
    if t == OnlineHeader + OtherHeader + otherDocs {
      assert |body| == 0;
    }
    FormatEmptyIff(data, show);
  }

  /** The menu check of api_interact_gpt: a menu value is accepted exactly
      when `0 <= menu < len(PROMPTS)`, and selects that prompt. A missing
      menu makes the comparison itself raise `TypeError`. */
  function SelectPrompt(menu: Option<int>, prompts: PromptList): (r: Result<string, Failure>)
    ensures r.Ok? <==> menu.Some? && 0 <= menu.value < |prompts|
    ensures r.Ok? ==> r.value == prompts[menu.value]
    ensures menu.None? ==> r == Err(Unhandled("TypeError"))
    ensures menu.Some? && !(0 <= menu.value < |prompts|) ==>
      r == Err(HttpError(400, "Invalid menu value."))
  {
    match menu
    case None => Err(Unhandled("TypeError"))
    case Some(m) =>
      if 0 <= m < |prompts| then Ok(prompts[m]) else Err(HttpError(400, "Invalid menu value."))
  }

  /** The final prompt: `prompt_init`, a blank line, llm_init's text, and the
      selected menu prompt. */
  function FinalPrompt<V>(promptInit: string, data: map<string, V>, show: V -> string,
                          otherDocs: string, selected: string): (r: string)
    ensures var gap := |promptInit| + 2;
      && |r| == gap + |LlmInit(data, show, otherDocs)| + |selected|
      && r[..gap] == promptInit + "\n\n"
      && r[gap..|r| - |selected|] == LlmInit(data, show, otherDocs)
      && r[|r| - |selected|..] == selected
  {
    promptInit + "\n\n" + LlmInit(data, show, otherDocs) + selected
  }

  /** The final prompt starts with `prompt_init` and the online-documents
      header and ends with the other documents and the selected prompt; with
      no section present, nothing stands between the two headers. */
  lemma FinalPromptLayout<V>(promptInit: string, data: map<string, V>, show: V -> string,
                             otherDocs: string, selected: string)
    ensures var p := FinalPrompt(promptInit, data, show, otherDocs, selected);
      var head := promptInit + "\n\n" + OnlineHeader;
      var tail := OtherHeader + otherDocs + selected;
      && |p| >= |head| + |tail|
      && p[..|head|] == head
      && p[|p| - |tail|..] == tail
    ensures (forall i | 0 <= i < |Sections| :: Sections[i].0 !in data) ==>
      FinalPrompt(promptInit, data, show, otherDocs, selected)
        == promptInit + "\n\n" + OnlineHeader + OtherHeader + otherDocs + selected
  {
    var p := FinalPrompt(promptInit, data, show, otherDocs, selected);
    var head := promptInit + "\n\n" + OnlineHeader;
    var body := Join("\n", SectionLines(data, show, Sections));
    var tail := OtherHeader + otherDocs + selected;
    assert p == head + body + tail;
    FormatEmptyIff(data, show);
  }

  /** api_interact_gpt up to the Gemini call: load the project's key, check
      the menu, and build the prompt. Every failure is caught by the outer
      handler and raised again with status 500. */
  method ApiInteractGpt<V>(keys: LlmKeys.KeyFile, p: LlmPayload, promptInit: string,
                           prompts: PromptList, data: map<string, V>, show: V -> string,
                           otherDocs: string)
    returns (r: Result<GeminiRequest, Failure>)
    ensures match LlmKeys.LoadKeyOutcome(keys.file, p.pid)
      case Err(_) => r == Err(Rewrapped(500, HttpError(500, "Key exception occurred.")))
      case Ok(key) =>
        match SelectPrompt(p.menu, prompts)
        case Err(e) => r == Err(Rewrapped(500, e))
        case Ok(selected) =>
          r == Ok(GeminiRequest(key, FinalPrompt(promptInit, data, show, otherDocs, selected)))
  {
    var loaded := keys.LoadKey(p.pid);
    if loaded.Err? {
      return Err(Rewrapped(500, HttpError(500, "Key exception occurred.")));
    }
    var key := loaded.value;
    var selection := SelectPrompt(p.menu, prompts);
    if selection.Err? {
      return Err(Rewrapped(500, selection.error));
    }
    var formatted := FormatDbData(data, show);
    var prompt := promptInit + "\n\n" + (OnlineHeader + formatted + OtherHeader + otherDocs)
                  + selection.value;
    r := Ok(GeminiRequest(key, prompt));
  }
}
