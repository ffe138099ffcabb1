/** The chat endpoint and the settings table. A chat request names a
    question type or, without one, is classified first; the type selects a
    prompt template, the stored settings fill in the resume and the
    monitor to capture, and the reply is the first choice of the language
    model's answer.

    The classifier, the two language-model clients and the screen capture
    are parameters: `classify` answers a classification request with a
    category, `complete` answers a list of messages with the contents of
    its choices, and `screenshot` yields the base64 text of a monitor's
    capture, or None where Python raises (no such monitor). */
module ChatRouter {
  import opened Common
  import opened Models
  import opened ChatSchema
  import opened Prompts

  /** ChatRequest: question_type defaults to None, the flags to false. */
  datatype ChatRequest = ChatRequest(
    conversation: string,
    questionType: Option<string>,
    useImage: bool,
    useReasoning: bool)

  datatype ChatResponse = ChatResponse(response: string, questionType: string)

  /** The instant client and model, or the reasoning ones. */
  datatype Backend = Instant | Reasoning

  // ---------------------------------------------------------------------
  // Settings

  /** get_settings_map: key to value over all rows of the setting table. */
  function SettingsMap(rows: map<int, Setting>): (m: map<string, string>)
    requires UniqueSettingKeys(rows)
    ensures forall id | id in rows :: rows[id].key in m && m[rows[id].key] == rows[id].value
    ensures forall k | k in m :: exists id | id in rows :: rows[id].key == k && m[k] == rows[id].value
  {
    map id | id in rows :: rows[id].key := rows[id].value
  }

  /** dict.get(key, default). */
  function Get(m: map<string, string>, key: string, default: string): string {
    if key in m then m[key] else default
  }

  /** Whether some row of the table carries the key. */
  predicate HasSettingKey(rows: map<int, Setting>, key: string) {
    exists id | id in rows :: rows[id].key == key
  }

  /** save_setting: the row with the key gets the new value, or a row is
      added for a new key. The returned setting carries the key and the
      value; keys stay unique and no other key changes. */
  method SaveSetting(db: Db, key: string, value: string) returns (s: Setting)
    requires db.Valid()
    modifies db`settings, db`nextSettingId
    ensures db.Valid()
    ensures s == Setting(key, value)
    ensures SettingsMap(db.settings) == SettingsMap(old(db.settings))[key := value]
    ensures HasSettingKey(old(db.settings), key) ==>
      && db.nextSettingId == old(db.nextSettingId)
      && exists id | id in old(db.settings) && old(db.settings)[id].key == key ::
           db.settings == old(db.settings)[id := Setting(key, value)]
    ensures !HasSettingKey(old(db.settings), key) ==>
      db.settings == old(db.settings)[old(db.nextSettingId) := Setting(key, value)]
      && db.nextSettingId == old(db.nextSettingId) + 1
  {
    var rows, next := UpsertRow(db.settings, db.nextSettingId, key, value);
    db.settings, db.nextSettingId := rows, next;
    s := Setting(key, value);
  }

  /** The row update of save_setting on the table's value: the row that
      the key lookup finds gets the new value, or a row is added with the
      next id. */
  method UpsertRow(rows: map<int, Setting>, next: int, key: string, value: string)
    returns (rows': map<int, Setting>, next': int)
    requires IdsBelow(rows, next) && UniqueSettingKeys(rows)
    ensures IdsBelow(rows', next') && UniqueSettingKeys(rows')
    ensures SettingsMap(rows') == SettingsMap(rows)[key := value]
    ensures HasSettingKey(rows, key) ==>
      next' == next && exists id | id in rows && rows[id].key == key :: rows' == rows[id := Setting(key, value)]
    ensures !HasSettingKey(rows, key) ==> rows' == rows[next := Setting(key, value)] && next' == next + 1
  {
    var found := FirstWhere(rows, next, (row: Setting) => row.key == key);
    if found.Some? {
      assert rows[found.value].key == key;
      UpdateKeepsUnique(rows, found.value, value);
      KeyWriteMap(rows, found.value, key, value);
      rows', next' := rows[found.value := Setting(key, value)], next;
    } else {
      NoRowNoKey(rows, key);
      InsertKeepsUnique(rows, next, key, value);
      KeyWriteMap(rows, next, key, value);
      rows', next' := rows[next := Setting(key, value)], next + 1;
    }
  }

  lemma NoRowNoKey(rows: map<int, Setting>, key: string)
    requires UniqueSettingKeys(rows)
    requires forall id | id in rows :: rows[id].key != key
    ensures key !in SettingsMap(rows)
  {
  }

  /** Overwriting the value of an existing row keeps the keys unique. */
  lemma UpdateKeepsUnique(rows: map<int, Setting>, id: int, value: string)
    requires UniqueSettingKeys(rows) && id in rows
    ensures UniqueSettingKeys(rows[id := Setting(rows[id].key, value)])
  {
    var rows' := rows[id := Setting(rows[id].key, value)];
    forall a, b | a in rows' && b in rows' && rows'[a].key == rows'[b].key
      ensures a == b
    {
      assert rows'[a].key == rows[a].key && rows'[b].key == rows[b].key;
    }
  }

  /** Adding a row for a key no row carries keeps the keys unique. */
  lemma InsertKeepsUnique(rows: map<int, Setting>, id: int, key: string, value: string)
    requires UniqueSettingKeys(rows) && id !in rows
    requires key !in SettingsMap(rows)
    ensures UniqueSettingKeys(rows[id := Setting(key, value)])
  {
    var rows' := rows[id := Setting(key, value)];
    forall a, b | a in rows' && b in rows' && rows'[a].key == rows'[b].key
      ensures a == b
    {
      if a != id && b != id {
        assert rows'[a] == rows[a] && rows'[b] == rows[b];
      }
    }
  }

  /** A write of `key` to row `id`, where row `id` is either new or the
      row that already carries `key`. */
  ghost predicate KeyWrite(rows: map<int, Setting>, id: int, key: string, value: string) {
    && UniqueSettingKeys(rows)
    && UniqueSettingKeys(rows[id := Setting(key, value)])
    && (id in rows ==> rows[id].key == key)
  }

  lemma KeyWriteKeeps(rows: map<int, Setting>, id: int, key: string, value: string, k: string)
    requires KeyWrite(rows, id, key, value)
    requires k in SettingsMap(rows) && k != key
    ensures k in SettingsMap(rows[id := Setting(key, value)])
    ensures SettingsMap(rows[id := Setting(key, value)])[k] == SettingsMap(rows)[k]
  {
    var j :| j in rows && rows[j].key == k;
    assert j != id;
    assert rows[id := Setting(key, value)][j] == rows[j];
  }

  lemma KeyWriteAddsNothing(rows: map<int, Setting>, id: int, key: string, value: string, k: string)
    requires KeyWrite(rows, id, key, value)
    requires k in SettingsMap(rows[id := Setting(key, value)]) && k != key
    ensures k in SettingsMap(rows)
  {
    var j :| j in rows[id := Setting(key, value)] && rows[id := Setting(key, value)][j].key == k;
    assert j != id;
    assert rows[j] == rows[id := Setting(key, value)][j];
  }

  /** The settings map after a key write: the key maps to the value and no
      other key changes. */
  lemma KeyWriteMap(rows: map<int, Setting>, id: int, key: string, value: string)
    requires KeyWrite(rows, id, key, value)
    ensures SettingsMap(rows[id := Setting(key, value)]) == SettingsMap(rows)[key := value]
  {
    var m, m' := SettingsMap(rows), SettingsMap(rows[id := Setting(key, value)]);
    forall k | k in m && k != key
      ensures k in m' && m'[k] == m[k]
    {
      KeyWriteKeeps(rows, id, key, value, k);
    }
    forall k | k in m' && k != key
      ensures k in m
    {
      KeyWriteAddsNothing(rows, id, key, value, k);
    }
    assert rows[id := Setting(key, value)][id] == Setting(key, value);
  }

  // ---------------------------------------------------------------------
  // Dispatch

  /** The question type the request is answered under: its own, or the
      classifier's category for its conversation. */
  function ResolvedType(request: ChatRequest, classify: seq<Message> -> Category): string {
    if request.questionType.Some? then request.questionType.value
    else CategoryName(classify(GetMessages(ClassifyPrompt(request.conversation))))
  }

  /** A classified request always resolves to the name of a category. */
  lemma ClassifiedTypeIsValid(request: ChatRequest, classify: seq<Message> -> Category)
    requires request.questionType.None?
    ensures ParseCategory(ResolvedType(request, classify)).Some?
  {
    CategoryRoundTrip(classify(GetMessages(ClassifyPrompt(request.conversation))), "");
  }

  /** The template of each category; the trivia and resume templates also
      take the stored resume. */
  function PromptFor(c: Category, conversation: string, resume: string): (p: Prompt)
    ensures p.systemPrompt == SystemPrompt
    ensures c == Trivia ==> p == TriviaPrompt(conversation, resume)
    ensures c == Resume ==> p == ResumePrompt(conversation, resume)
    ensures c == Coding ==> p == CodingPrompt(conversation)
    ensures c == SystemDesign ==> p == SystemDesignPrompt(conversation)
    ensures c == Clarify ==> p == ClarifyPrompt(conversation)
  {
    match c
    case Trivia => TriviaPrompt(conversation, resume)
    case Resume => ResumePrompt(conversation, resume)
    case Coding => CodingPrompt(conversation)
    case SystemDesign => SystemDesignPrompt(conversation)
    case Clarify => ClarifyPrompt(conversation)
  }

  /** Whatever the category, the prompt sent holds the conversation. */
  lemma PromptHoldsConversation(c: Category, conversation: string, resume: string)
    ensures Contains(PromptFor(c, conversation, resume).prompt, conversation)
  {
    match c
    case Trivia => TriviaHoldsConversation(conversation, resume);
    case Resume => ResumeHoldsConversation(conversation, resume);
    case Coding => CodingHoldsConversation(conversation);
    case SystemDesign => SystemDesignHoldsConversation(conversation);
    case Clarify => ClarifyHoldsConversation(conversation);
  }

  const ImagePrefix: string := "data:image/jpeg;base64,"

  /** The messages sent with a screen capture: the system message, then a
      user message of the prompt text and the image. */
  function ImageMessages(p: Prompt, shot: string): seq<Message> {
    [Message("system", Text(p.systemPrompt)),
     Message("user", Parts([TextPart(p.prompt), ImageUrl(ImagePrefix + shot)]))]
  }

  /** The image messages differ from get_messages only in the user
      message's content, whose text part is the prompt. */
  lemma ImageMessagesKeepPrompt(p: Prompt, shot: string)
    ensures |ImageMessages(p, shot)| == |GetMessages(p)| == 2
    ensures ImageMessages(p, shot)[0] == GetMessages(p)[0]
    ensures ImageMessages(p, shot)[1].role == GetMessages(p)[1].role
    ensures ImageMessages(p, shot)[1].content.Parts?
    ensures ImageMessages(p, shot)[1].content.parts[0] == TextPart(GetMessages(p)[1].content.text)
    ensures ImageMessages(p, shot)[1].content.parts[1].url[|ImagePrefix|..] == shot
  {
  }

  /** The reply: the first choice's content, or "" when there is none. */
  function FirstChoice(choices: seq<string>): (reply: string)
    ensures choices != [] ==> reply == choices[0]
    ensures choices == [] ==> reply == ""
  {
    if choices == [] then "" else choices[0]
  }

  /** getChatResponse. */
  method GetChatResponse(
    db: Db,
    request: ChatRequest,
    classify: seq<Message> -> Category,
    screenshot: int -> Option<string>,
    complete: (Backend, seq<Message>) -> seq<string>)
    returns (r: Result<ChatResponse>)
    requires db.Valid()
    ensures var settings := SettingsMap(db.settings);
      var monitor := ParseInt(Get(settings, "monitor_number", "1"));
      var questionType := ResolvedType(request, classify);
      && (monitor.None? ==> r == Err(ServerError))
      && (monitor.Some? && ParseCategory(questionType).None? ==> r == Err(BadRequest))
      && ((monitor.Some? && ParseCategory(questionType).Some? && request.useImage
           && screenshot(monitor.value).None?) ==> r == Err(ServerError))
      && ((monitor.Some? && ParseCategory(questionType).Some?
           && (!request.useImage || screenshot(monitor.value).Some?)) ==> r.Ok?)
      && (r.Ok? ==>
            var prompt := PromptFor(ParseCategory(questionType).value, request.conversation,
              Get(settings, "resume", ""));
            var messages :=
              if request.useImage then ImageMessages(prompt, screenshot(monitor.value).value)
              else GetMessages(prompt);
            var backend := if request.useReasoning then Reasoning else Instant;
            && monitor.Some? && ParseCategory(questionType).Some?
            && r.value.questionType == questionType
            && r.value.response == FirstChoice(complete(backend, messages)))
    ensures r.Err? ==> r.error != NotFound
    ensures request.questionType.None? ==> r != Err(BadRequest)
  {
    var questionType := request.questionType;
    if questionType.None? {
      questionType := Some(CategoryName(classify(GetMessages(ClassifyPrompt(request.conversation)))));
      ClassifiedTypeIsValid(request, classify);
    }

    var backend := Instant;
    if request.useReasoning {
      backend := Reasoning;
    }

    var settings := SettingsMap(db.settings);
    var resume := Get(settings, "resume", "");
    var jobDescription := Get(settings, "job_description", "");
    var monitorNumber := ParseInt(Get(settings, "monitor_number", "1"));
    if monitorNumber.None? {
      return Err(ServerError);
    }

    var category := ParseCategory(questionType.value);
    if category.None? {
      return Err(BadRequest);
    }
    var prompt := PromptFor(category.value, request.conversation, resume);

    var messages := GetMessages(prompt);
    if request.useImage {
      var shot := screenshot(monitorNumber.value);
      if shot.None? {
        return Err(ServerError);
      }
      messages := ImageMessages(prompt, shot.value);
    }

    var choices := complete(backend, messages);
    return Ok(ChatResponse(FirstChoice(choices), questionType.value));
  }

  /** The defaults of the settings the chat endpoint reads. */
  lemma SettingDefaults(rows: map<int, Setting>)
    requires UniqueSettingKeys(rows)
    requires forall id | id in rows :: rows[id].key !in {"resume", "job_description", "monitor_number"}
    ensures Get(SettingsMap(rows), "resume", "") == ""
    ensures Get(SettingsMap(rows), "job_description", "") == ""
    ensures ParseInt(Get(SettingsMap(rows), "monitor_number", "1")) == Some(1)
  {
    ParseIntOfDecimal(1);
    assert IntToDecimal(1) == "1";
  }
}
