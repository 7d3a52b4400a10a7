/**
 * `gptcli/assistant.py`, the thread side: an `AssistantThread` bound to one
 * remote assistant and one remote thread, which adds the user's messages,
 * waits for a run to complete and fetches the replies since the last user
 * message. The remote service is outside the model: what it answers
 * (the known assistant ids, the ids it hands out, the run states it reports
 * while polling, the message listing and the file names) comes in as
 * parameters.
 */
module AssistantThreads {
  import opened Base
  import opened NamedConfigs
  import opened Citations

  /** `CONFIG_DEFAULTS`: a default assistant id that no code path reads. */
  const ConfigDefaults: Config := map["id" := Str("asst_jCP75X9phRfVjZ8Q4iBistYT")]

  /** `DEFAULT_ASSISTANTS` */
  const DefaultAssistants: map<string, Config> := map[]

  /** A run as the service reports it while it is polled. */
  datatype Run = Run(id: string, status: string)

  /** The id `config.get("id")` hands to the service, when it is a non-empty string. */
  function AssistantIdOf(config: Config): (r: Option<string>)
    ensures r.Some? <==> "id" in config && config["id"].Str? && config["id"].s != ""
    ensures r.Some? ==> config["id"] == Str(r.value)
  {
    match Get(config, "id")
    case Str(s) => if s != "" then Some(s) else None
    case _ => None
  }

  /**
   * `config.get("messages", [])[:]`: a copy of the seed value. Lists and
   * strings can be sliced; `None`, numbers and booleans raise `TypeError`.
   */
  function SlicedSeed(config: Config): (r: Result<Value>)
    ensures "messages" !in config ==> r == Ok(Messages([]))
    ensures "messages" in config ==> (r.Ok? <==> config["messages"].Messages? || config["messages"].Str?)
    ensures "messages" in config && r.Ok? ==> r.value == config["messages"]
    ensures r.Err? ==> r.error == TypeError
  {
    if "messages" !in config then Ok(Messages([]))
    else match config["messages"]
      case Messages(ms) => Ok(Messages(ms))
      case Str(s) => Ok(Str(s))
      case _ => Err(TypeError)
  }

  /** A seed the wrapper can use as a message list is always one the thread can copy. */
  lemma SeedMessagesSliceable(config: Config)
    requires SeedMessages(config).Ok?
    ensures SlicedSeed(config) == Ok(Messages(SeedMessages(config).value))
  {
  }

  /** Why `AssistantThread(config)` fails, if it does: the assistant lookup, then the copy of the seed messages. */
  function CreateError(config: Config, assistants: set<string>): (r: Option<Error>)
    ensures r.None? <==> AssistantIdOf(config).Some? && AssistantIdOf(config).value in assistants && SlicedSeed(config).Ok?
    ensures AssistantIdOf(config).None? ==> r == Some(ValueError("Expected a non-empty value for `assistant_id`"))
    ensures AssistantIdOf(config).Some? && AssistantIdOf(config).value !in assistants ==> r == Some(NotFound(AssistantIdOf(config).value))
    ensures AssistantIdOf(config).Some? && AssistantIdOf(config).value in assistants && SlicedSeed(config).Err? ==> r == Some(TypeError)
  {
    match AssistantIdOf(config)
    case None => Some(ValueError("Expected a non-empty value for `assistant_id`"))
    case Some(id) =>
      if id !in assistants then Some(NotFound(id))
      else if SlicedSeed(config).Err? then Some(SlicedSeed(config).error)
      else None
  }

  class AssistantThread {
    var config: Config
    var assistantId: string
    var threadId: string
    /** The anchor: the id of the user message added last, if any. */
    var lastUserMessageId: Option<string>

    constructor (config: Config, assistantId: string, threadId: string)
      ensures this.config == config && this.assistantId == assistantId && this.threadId == threadId
      ensures lastUserMessageId == None
    {
      this.config := config;
      this.assistantId := assistantId;
      this.threadId := threadId;
      lastUserMessageId := None;
    }

    /**
     * `__init__`: retrieves the assistant named by `config["id"]`, starts
     * with no anchor and calls `init_messages`, which opens a new thread
     * (`newThreadId`) and slices the seed messages.
     */
    static method Create(config: Config, assistants: set<string>, newThreadId: string) returns (r: Result<AssistantThread>)
      ensures r.Err? <==> CreateError(config, assistants).Some?
      ensures r.Err? ==> r.error == CreateError(config, assistants).value
      ensures r.Ok? ==> && fresh(r.value) && r.value.config == config
                        && r.value.assistantId == AssistantIdOf(config).value
                        && r.value.threadId == newThreadId && r.value.lastUserMessageId == None
    {
      var id := AssistantIdOf(config);
      if id.None? {
        return Err(ValueError("Expected a non-empty value for `assistant_id`"));
      }
      if id.value !in assistants {
        return Err(NotFound(id.value));
      }
      var thread := new AssistantThread(config, id.value, "");
      var seed := thread.InitMessages(newThreadId);
      if seed.Err? {
        return Err(seed.error);
      }
      r := Ok(thread);
    }

    /** `from_config`: there are no built-in assistants, so the configuration is used as given. */
    static method FromConfig(name: string, config: Config, assistants: set<string>, newThreadId: string) returns (r: Result<AssistantThread>)
      ensures r.Err? <==> CreateError(config, assistants).Some?
      ensures r.Err? ==> r.error == CreateError(config, assistants).value
      ensures r.Ok? ==> && fresh(r.value) && r.value.config == config
                        && r.value.assistantId == AssistantIdOf(config).value
                        && r.value.threadId == newThreadId && r.value.lastUserMessageId == None
    {
      var merged := ResolveConfig(name, config, DefaultAssistants);
      if merged.Err? {
        // the merge only runs for a name with built-in defaults, and there are none
        assert false;
      }
      r := Create(merged.value, assistants, newThreadId);
    }

    /** `init_messages`: binds a new thread and returns a copy of the seed messages. */
    method InitMessages(newThreadId: string) returns (r: Result<Value>)
      modifies this
      ensures threadId == newThreadId
      ensures config == old(config) && assistantId == old(assistantId) && lastUserMessageId == old(lastUserMessageId)
      ensures r == SlicedSeed(config)
    {
      threadId := newThreadId;
      r := SlicedSeed(config);
    }

    /**
     * `add_message`: the service stores the message under `createdId` in
     * this thread; that id becomes the anchor.
     */
    method AddMessage(our: Message, createdId: string) returns (m: ThreadMessage)
      modifies this
      ensures lastUserMessageId == Some(createdId)
      ensures config == old(config) && assistantId == old(assistantId) && threadId == old(threadId)
      ensures m == ThreadMessage(createdId, our.role, [TextBlock(TextContent(our.content, []))])
    {
      m := ThreadMessage(createdId, our.role, [TextBlock(TextContent(our.content, []))]);
      lastUserMessageId := Some(createdId);
    }

    /** `fetch_messages` on the listing the service returns, newest first. */
    method FetchMessages(sinceLastUserMessage: bool, listing: seq<ThreadMessage>, files: map<string, string>)
      returns (r: Result<seq<ThreadMessage>>)
      ensures r == Fetched(sinceLastUserMessage, lastUserMessageId, listing, files)
    {
      var a := new ThreadMessage[|listing|](i requires 0 <= i < |listing| => listing[i]);
      assert a[..] == listing;
      ReverseInPlace(a);
      var messages := a[..];
      var window := Window(sinceLastUserMessage, lastUserMessageId, messages);
      if window.Err? {
        return Err(window.error);
      }
      r := AddCitationsToMessages(window.value, files);
    }
  }

  // ---------------------------------------------------------------------------
  // run_thread
  // ---------------------------------------------------------------------------

  /** The index of the first completed run, if one completes. */
  function FirstCompleted(runs: seq<Run>): (k: Option<nat>)
    ensures k.Some? ==> k.value < |runs| && runs[k.value].status == "completed"
    ensures k.Some? ==> forall j :: 0 <= j < k.value ==> runs[j].status != "completed"
    ensures k.None? <==> forall j :: 0 <= j < |runs| ==> runs[j].status != "completed"
  {
    if runs == [] then None
    else if runs[0].status == "completed" then Some(0)
    else match FirstCompleted(runs[1..])
      case None => None
      case Some(k) => Some(k + 1)
  }

  /**
   * `run_thread`: starts a run (the service answers `created`) and
   * retrieves it again (the answers are `polls`, in order) until its status
   * is "completed". The source polls for ever; here the answers can run
   * out, and then there is no run. `retrieved` counts the retrievals.
   */
  method RunThread(created: Run, polls: seq<Run>) returns (run: Option<Run>, retrieved: nat)
    ensures var runs := [created] + polls;
            && (run.Some? <==> FirstCompleted(runs).Some?)
            && (run.Some? ==> retrieved == FirstCompleted(runs).value && run.value == runs[retrieved])
            && (run.None? ==> retrieved == |polls|)
  {
    var runs := [created] + polls;
    var current := created;
    retrieved := 0;
    while current.status != "completed"
      invariant 0 <= retrieved <= |polls|
      invariant current == runs[retrieved]
      invariant forall j :: 0 <= j < retrieved ==> runs[j].status != "completed"
      decreases |polls| - retrieved
    {
      if retrieved == |polls| {
        return None, retrieved;
      }
      retrieved := retrieved + 1;
      current := runs[retrieved];
    }
    run := Some(current);
  }

  // ---------------------------------------------------------------------------
  // fetch_messages
  // ---------------------------------------------------------------------------

  /** `messages.reverse()` as a value. */
  function Reverse<T>(s: seq<T>): (r: seq<T>)
    ensures |r| == |s|
    ensures forall i :: 0 <= i < |s| ==> r[i] == s[|s| - 1 - i]
  {
    if s == [] then [] else Reverse(s[1..]) + [s[0]]
  }

  /** Reversing twice gives the listing back. */
  lemma ReverseReverse<T>(s: seq<T>)
    ensures Reverse(Reverse(s)) == s
  {
  }

  /** `list.reverse()`: swaps from both ends towards the middle. */
  method ReverseInPlace<T>(a: array<T>)
    modifies a
    ensures a[..] == Reverse(old(a[..]))
  {
    var n := a.Length;
    var i := 0;
    while i < n / 2
      invariant 0 <= i <= n / 2
      invariant forall k :: 0 <= k < i ==> a[k] == old(a[n - 1 - k]) && a[n - 1 - k] == old(a[k])
      invariant forall k :: i <= k < n - i ==> a[k] == old(a[k])
    {
      a[i], a[n - 1 - i] := a[n - 1 - i], a[i];
      i := i + 1;
    }
  }

  /** `[message.id for message in messages]` */
  function Ids(ms: seq<ThreadMessage>): (ids: seq<string>)
    ensures |ids| == |ms| && forall i :: 0 <= i < |ms| ==> ids[i] == ms[i].id
  {
    seq(|ms|, i requires 0 <= i < |ms| => ms[i].id)
  }

  /** `list.index`: the first position holding `x`, or none when `x` is absent. */
  function FirstIndex(xs: seq<string>, x: string): (k: Option<nat>)
    ensures k.None? <==> x !in xs
    ensures k.Some? ==> k.value < |xs| && xs[k.value] == x && x !in xs[..k.value]
  {
    if xs == [] then None
    else if xs[0] == x then Some(0)
    else match FirstIndex(xs[1..], x)
      case None => None
      case Some(k) =>
        assert xs[..k + 1] == [xs[0]] + xs[1..][..k];
        Some(k + 1)
  }

  /** Whether `fetch_messages` cuts the listing: asked to, and the anchor is set (an empty id counts as unset). */
  predicate Anchored(sinceLastUserMessage: bool, anchor: Option<string>)
  {
    sinceLastUserMessage && anchor.Some? && anchor.value != ""
  }

  /**
   * The messages `fetch_messages` keeps, oldest first: all of them, or, when
   * anchored, those after the first occurrence of the anchor; an anchor
   * missing from the listing raises `ValueError` from `list.index`.
   */
  function Window(sinceLastUserMessage: bool, anchor: Option<string>, ms: seq<ThreadMessage>): (r: Result<seq<ThreadMessage>>)
    ensures !Anchored(sinceLastUserMessage, anchor) ==> r == Ok(ms)
    ensures r.Err? <==> Anchored(sinceLastUserMessage, anchor) && anchor.value !in Ids(ms)
    ensures r.Err? ==> r.error == ValueError("'" + anchor.value + "' is not in list")
    ensures r.Ok? ==> |r.value| <= |ms| && r.value == ms[|ms| - |r.value|..]
  {
    if Anchored(sinceLastUserMessage, anchor) then
      match FirstIndex(Ids(ms), anchor.value)
      // `list.index` shows the id's repr; service ids hold no quote, so it is the id in single quotes
      case None => Err(ValueError("'" + anchor.value + "' is not in list"))
      case Some(k) => Ok(ms[k + 1..])
    else Ok(ms)
  }

  /** When anchored, the window is exactly what follows the anchor's first occurrence. */
  lemma WindowAfterAnchor(ms: seq<ThreadMessage>, anchor: string, k: nat)
    requires anchor != ""
    requires k < |ms| && ms[k].id == anchor
    requires forall j :: 0 <= j < k ==> ms[j].id != anchor
    ensures Window(true, Some(anchor), ms) == Ok(ms[k + 1..])
  {
    var f := FirstIndex(Ids(ms), anchor);
    assert Ids(ms)[k] == anchor;
  }

  /** With distinct ids, the anchor itself is never among the messages fetched. */
  lemma AnchorNotInWindow(ms: seq<ThreadMessage>, anchor: string)
    requires anchor != ""
    requires forall i, j :: 0 <= i < j < |ms| ==> ms[i].id != ms[j].id
    requires Window(true, Some(anchor), ms).Ok?
    ensures anchor !in Ids(Window(true, Some(anchor), ms).value)
  {
    var k := FirstIndex(Ids(ms), anchor).value;
    var w := Window(true, Some(anchor), ms).value;
    assert w == ms[k + 1..];
    forall i | 0 <= i < |w|
      ensures w[i].id != anchor
    {
      assert w[i] == ms[k + 1 + i];
      assert ms[k].id == anchor;
    }
  }

  /** Reversing a listing does not change which ids it holds. */
  lemma IdsReverse(ms: seq<ThreadMessage>)
    ensures forall x :: x in Ids(Reverse(ms)) <==> x in Ids(ms)
  {
    var r := Reverse(ms);
    forall x | x in Ids(r)
      ensures x in Ids(ms)
    {
      var i :| 0 <= i < |r| && Ids(r)[i] == x;
      assert Ids(ms)[|ms| - 1 - i] == x;
    }
    forall x | x in Ids(ms)
      ensures x in Ids(r)
    {
      var i :| 0 <= i < |ms| && Ids(ms)[i] == x;
      assert Ids(r)[|ms| - 1 - i] == x;
    }
  }

  /** What `fetch_messages` returns: the listing oldest first, cut at the anchor, citations added. */
  function Fetched(sinceLastUserMessage: bool, anchor: Option<string>, listing: seq<ThreadMessage>, files: map<string, string>)
    : (r: Result<seq<ThreadMessage>>)
    ensures Anchored(sinceLastUserMessage, anchor) && anchor.value !in Ids(listing) ==>
              r == Err(ValueError("'" + anchor.value + "' is not in list"))
    ensures r.Ok? ==> |r.value| <= |listing|
  {
    IdsReverse(listing);
    match Window(sinceLastUserMessage, anchor, Reverse(listing))
    case Err(e) => Err(e)
    case Ok(w) => WithCitations(w, files)
  }

  /** Unanchored, every message of the listing comes back, oldest first, each with its citations. */
  lemma FetchedUnanchored(sinceLastUserMessage: bool, anchor: Option<string>, listing: seq<ThreadMessage>, files: map<string, string>)
    requires !Anchored(sinceLastUserMessage, anchor)
    requires forall i :: 0 <= i < |listing| ==> WithCitation(listing[i], files).Ok?
    ensures Fetched(sinceLastUserMessage, anchor, listing, files).Ok?
    ensures var r := Fetched(sinceLastUserMessage, anchor, listing, files).value;
            |r| == |listing| &&
            forall i :: 0 <= i < |listing| ==> r[i] == WithCitation(listing[|listing| - 1 - i], files).value
  {
    var ms := Reverse(listing);
    WithCitationsPointwise(ms, files);
  }

  /**
   * Anchored, the messages after the anchor's first occurrence in the listing
   * put oldest first are fetched, each with its citations.
   */
  lemma FetchedAnchored(sinceLastUserMessage: bool, anchor: Option<string>, listing: seq<ThreadMessage>, files: map<string, string>, k: nat)
    requires Anchored(sinceLastUserMessage, anchor)
    requires k < |listing| && Reverse(listing)[k].id == anchor.value
    requires forall j :: 0 <= j < k ==> Reverse(listing)[j].id != anchor.value
    ensures Fetched(sinceLastUserMessage, anchor, listing, files) == WithCitations(Reverse(listing)[k + 1..], files)
  {
    WindowAfterAnchor(Reverse(listing), anchor.value, k);
  }

  // ---------------------------------------------------------------------------
  // thread_message_to_text
  // ---------------------------------------------------------------------------

  /** The text values of the text blocks, in order; other blocks are skipped. */
  function Texts(blocks: seq<ContentBlock>): (r: seq<string>)
    ensures |r| <= |blocks|
    ensures (forall i :: 0 <= i < |blocks| ==> blocks[i].TextBlock?) ==> |r| == |blocks|
    ensures (forall i :: 0 <= i < |blocks| ==> !blocks[i].TextBlock?) ==> r == []
  {
    if blocks == [] then []
    else if blocks[0].TextBlock? then [blocks[0].text.value] + Texts(blocks[1..])
    else Texts(blocks[1..])
  }

  /** One block shows its text if it is a text block, and nothing otherwise. */
  lemma TextsOfBlock(b: ContentBlock)
    ensures b.TextBlock? ==> Texts([b]) == [b.text.value]
    ensures !b.TextBlock? ==> Texts([b]) == []
  {
    assert [b][1..] == [];
  }

  /** Filtering the text blocks commutes with concatenation: order is kept and nothing is dropped. */
  lemma {:induction false} TextsAppend(a: seq<ContentBlock>, b: seq<ContentBlock>)
    ensures Texts(a + b) == Texts(a) + Texts(b)
  {
    if a == [] {
      assert a + b == b;
    } else {
      assert (a + b)[0] == a[0];
      assert (a + b)[1..] == a[1..] + b;
      TextsAppend(a[1..], b);
    }
  }

  /** All content blocks of a listing, message by message: the flattening comprehension. */
  function Blocks(ms: seq<ThreadMessage>): seq<ContentBlock>
  {
    if ms == [] then [] else ms[0].content + Blocks(ms[1..])
  }

  /**
   * `thread_message_to_text`: the text values of every message's blocks,
   * message by message. It is the filter of text blocks applied to the
   * flattened block list, which is how the code states it.
   */
  function ThreadMessageToText(ms: seq<ThreadMessage>): (r: seq<string>)
    ensures r == Texts(Blocks(ms))
  {
    if ms == [] then []
    else
      TextsAppend(ms[0].content, Blocks(ms[1..]));
      Texts(ms[0].content) + ThreadMessageToText(ms[1..])
  }

  lemma {:induction false} BlocksAppend(a: seq<ThreadMessage>, b: seq<ThreadMessage>)
    ensures Blocks(a + b) == Blocks(a) + Blocks(b)
  {
    if a == [] {
      assert a + b == b;
    } else {
      assert (a + b)[1..] == a[1..] + b;
      BlocksAppend(a[1..], b);
    }
  }

  /** The text of a listing is the text of its parts, in order. */
  lemma ThreadMessageToTextAppend(a: seq<ThreadMessage>, b: seq<ThreadMessage>)
    ensures ThreadMessageToText(a + b) == ThreadMessageToText(a) + ThreadMessageToText(b)
  {
    BlocksAppend(a, b);
    TextsAppend(Blocks(a), Blocks(b));
  }

  /** The one text a message shows once its citations are added: its text with markers and references. */
  function CitedText(m: ThreadMessage, files: map<string, string>): (t: string)
    requires WithCitation(m, files).Ok?
    ensures Texts(WithCitation(m, files).value.content) == [t]
  {
    Annotated(m.content[0].text, files).value
  }

  /** Messages that show one text each show those texts, in order. */
  lemma {:induction false} TextsOfSingles(cs: seq<ThreadMessage>, ts: seq<string>)
    requires |cs| == |ts|
    requires forall i :: 0 <= i < |cs| ==> Texts(cs[i].content) == [ts[i]]
    ensures ThreadMessageToText(cs) == ts
  {
    if cs != [] {
      TextsOfSingles(cs[1..], ts[1..]);
    }
  }

  /** Fetched messages render as one text each, in order: the message's text with its markers and references. */
  lemma TextOfCited(ms: seq<ThreadMessage>, files: map<string, string>)
    requires WithCitations(ms, files).Ok?
    ensures forall i :: 0 <= i < |ms| ==> WithCitation(ms[i], files).Ok?
    ensures ThreadMessageToText(WithCitations(ms, files).value) == seq(|ms|, i requires 0 <= i < |ms| && WithCitation(ms[i], files).Ok? => CitedText(ms[i], files))
  {
    WithCitationsPointwise(ms, files);
    var cited := WithCitations(ms, files).value;
    var ts := seq(|ms|, i requires 0 <= i < |ms| && WithCitation(ms[i], files).Ok? => CitedText(ms[i], files));
    forall i | 0 <= i < |ms|
      ensures Texts(cited[i].content) == [ts[i]]
    {
      assert cited[i] == WithCitation(ms[i], files).value;
    }
    TextsOfSingles(cited, ts);
  }

  // ---------------------------------------------------------------------------
  // init_assistant
  // ---------------------------------------------------------------------------

  /** `init_assistant`: the custom assistant of that name (there are no built-in ones), else exit status 1. */
  method InitAssistant(name: string, custom: map<string, Config>, assistants: set<string>, newThreadId: string)
    returns (r: Result<AssistantThread>)
    ensures name !in custom ==> r == Err(Exit(1))
    ensures name in custom ==> (r.Err? <==> CreateError(custom[name], assistants).Some?)
    ensures name in custom && r.Err? ==> r.error == CreateError(custom[name], assistants).value
    ensures r.Ok? ==> && name in custom && fresh(r.value) && r.value.config == custom[name]
                      && r.value.threadId == newThreadId && r.value.lastUserMessageId == None
  {
    var chosen := SelectConfig(name, custom, DefaultAssistants);
    if chosen.Err? {
      return Err(chosen.error);
    }
    r := AssistantThread.FromConfig(name, chosen.value, assistants, newThreadId);
  }
}
