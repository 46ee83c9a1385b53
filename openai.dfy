/**
 * The OpenAI backend (src/openai/mod.rs): one tracker per API key, a
 * round-robin key cursor, the per-key requests-per-minute window, the
 * system prompt and the reading of a chat-completion reply.
 */
module OpenAI {
  import opened Basics
  import opened Http
  import opened RateWindow

  datatype OpenAIConfig = OpenAIConfig(
    baseUrl: string,
    model: string,
    apiKeys: seq<string>,
    rpmLimit: U32,              // 0 turns the per-minute limit off
    concurrentLimit: nat,
    systemPrompt: Option<string>)

  function DefaultConfig(): (c: OpenAIConfig)
    ensures c.baseUrl == "https://api.openai.com/v1" && c.model == "gpt-3.5-turbo"
    ensures c.apiKeys == [] && c.rpmLimit == 60 && c.concurrentLimit == 10
    ensures c.systemPrompt == None
  {
    OpenAIConfig("https://api.openai.com/v1", "gpt-3.5-turbo", [], 60, 10, None)
  }

  const DefaultPromptStart := "You are a translator. Translate the following text to "

  /**
   * The configured prompt, word for word; otherwise a fixed sentence that
   * names the target language, which can be read back from it.
   */
  function SystemPrompt(config: OpenAIConfig, targetLang: string): (p: string)
    ensures config.systemPrompt.Some? ==> p == config.systemPrompt.value
    ensures config.systemPrompt.None? ==>
              |p| == 55 + |targetLang| && p[..54] == DefaultPromptStart
              && p[54..|p| - 1] == targetLang && p[|p| - 1] == '.'
  {
    match config.systemPrompt
    case Some(prompt) => prompt
    case None => DefaultPromptStart + targetLang + "."
  }

  /** The default prompts of two target languages differ whenever the languages do. */
  lemma DefaultPromptNamesTarget(config: OpenAIConfig, a: string, b: string)
    requires config.systemPrompt.None? && SystemPrompt(config, a) == SystemPrompt(config, b)
    ensures a == b
  {
    var pa := SystemPrompt(config, a);
    assert a == pa[54..|pa| - 1];
  }

  datatype Message = Message(role: string, content: string)

  /** What one translation sends: the model, the key it authorises with, and two messages. */
  datatype ChatRequest = ChatRequest(model: string, bearerKey: string, messages: seq<Message>)

  function BuildRequest(config: OpenAIConfig, key: string, prompt: string, text: string): (q: ChatRequest)
    ensures q.model == config.model && q.bearerKey == key
    ensures q.messages == [Message("system", prompt), Message("user", text)]
  {
    ChatRequest(config.model, key, [Message("system", prompt), Message("user", text)])
  }

  const NoKeysMessage := "No API keys configured"

  /**
   * Reading a chat-completion reply, whose JSON body decodes to the contents
   * of its `choices`: the first choice on success, an error otherwise.
   */
  function ChatResult(reply: Reply<seq<string>>): (r: Result<string, string>)
    ensures r.Success? <==> DecodeReply(reply).Success? && |reply.json.value| > 0
    ensures r.Success? ==> r.value == reply.json.value[0]
    ensures DecodeReply(reply).Failure? ==> r == Failure(DecodeReply(reply).error)
    ensures DecodeReply(reply).Success? && reply.json.value == [] ==> r == Failure(NoResultsMessage)
  {
    match DecodeReply(reply)
    case Failure(e) => Failure(e)
    case Success(choices) =>
      if |choices| == 0 then Failure(NoResultsMessage) else Success(choices[0])
  }

  /** The cursor after one selection from a pool of `n` keys. */
  function Advance(cursor: nat, n: nat): (next: nat)
    requires n > 0
    ensures next < n
  {
    (cursor + 1) % n
  }

  /** The indices `k` successive selections return, starting from `cursor`. */
  function Picks(cursor: nat, n: nat, k: nat): (s: seq<nat>)
    requires n > 0
    ensures |s| == k
    ensures k > 0 ==> s[0] == cursor
    ensures cursor < n ==> forall i :: 0 <= i < k ==> s[i] < n
    decreases k
  {
    if k == 0 then [] else [cursor] + Picks(Advance(cursor, n), n, k - 1)
  }

  /** From a cursor on a key, the cursor moves to the next key, or back to the first after the last. */
  lemma AdvanceStep(cursor: nat, n: nat)
    requires cursor < n
    ensures Advance(cursor, n) == if cursor + 1 < n then cursor + 1 else 0
  {
    if cursor + 1 == n {
      assert (cursor + 1) % n == n % n == 0;
    }
  }

  /**
   * Until the cursor wraps, selection `i` returns key `cursor + i`; the one
   * after the last key returns key 0.
   */
  lemma {:induction false} PicksAt(cursor: nat, n: nat, k: nat, i: nat)
    requires cursor < n && i < k && cursor + i <= n
    ensures Picks(cursor, n, k)[i] == if cursor + i < n then cursor + i else 0
    decreases i
  {
    if i > 0 {
      AdvanceStep(cursor, n);
      PicksAt(Advance(cursor, n), n, k - 1, i - 1);
    }
  }

  /**
   * Round robin from a fresh translator: `n` selections return every key
   * index once, in key order, and the next one starts over at 0.
   */
  lemma RoundRobin(n: nat)
    requires n > 0
    ensures Picks(0, n, n) == seq(n, i => i)
    ensures Picks(0, n, n + 1)[n] == 0
  {
    forall i | 0 <= i < n ensures Picks(0, n, n)[i] == i {
      PicksAt(0, n, n, i);
    }
    PicksAt(0, n, n + 1, n);
  }

  /** Where the cursor stands after `k` selections starting from `cursor`. */
  function CursorAfter(cursor: nat, n: nat, k: nat): nat
    requires n > 0
    decreases k
  {
    if k == 0 then cursor else CursorAfter(Advance(cursor, n), n, k - 1)
  }

  /** One more selection appends the key under the cursor. */
  lemma {:induction false} PicksSnoc(cursor: nat, n: nat, k: nat)
    requires n > 0
    ensures Picks(cursor, n, k + 1) == Picks(cursor, n, k) + [CursorAfter(cursor, n, k)]
    ensures CursorAfter(cursor, n, k + 1) == Advance(CursorAfter(cursor, n, k), n)
    decreases k
  {
    if k > 0 {
      PicksSnoc(Advance(cursor, n), n, k - 1);
    }
  }

  /** Usage bookkeeping of one API key. */
  class KeyTracker {
    /** The recent request times, kept only when the per-minute limit is on. */
    var requestTimes: Option<seq<nat>>
    /** Every time this tracker ever recorded, for the window guarantee. */
    ghost var admitted: seq<nat>

    ghost predicate Valid(rpm: U32)
      reads this
    {
      match requestTimes
      case None => rpm == 0 && admitted == []
      case Some(times) => rpm > 0 && Consistent(admitted, times, rpm)
    }

    /** The monotonic clock reads `now` or later than anything recorded. */
    ghost predicate RecordedBy(now: nat)
      reads this
    {
      NotAfter(admitted, now)
    }

    constructor(rpm: U32)
      ensures Valid(rpm) && admitted == []
      ensures requestTimes == if rpm > 0 then Some([]) else None
    {
      requestTimes := if rpm > 0 then Some([]) else None;
      admitted := [];
    }

    /** Nothing admitted yet, and a history only when a limit is set. */
    ghost predicate Blank(rpm: U32)
      reads this
    {
      admitted == [] && requestTimes == if rpm > 0 then Some([]) else None
    }
  }

  lemma ConsistentTrackerValid(tracker: KeyTracker, rpm: U32, times: seq<nat>, history: seq<nat>)
    requires rpm > 0 && Consistent(history, times, rpm)
    requires tracker.requestTimes == Some(times) && tracker.admitted == history
    ensures tracker.Valid(rpm)
  {
  }

  lemma FreshTrackerValid(tracker: KeyTracker, rpm: U32)
    requires tracker.admitted == []
    requires tracker.requestTimes == if rpm > 0 then Some([]) else None
    ensures tracker.Valid(rpm)
  {
  }

  class OpenAITranslator {
    const config: OpenAIConfig
    const keyTrackers: seq<KeyTracker>
    var currentKeyIndex: nat

    /** One tracker per key, all distinct and valid, and a cursor on a key. */
    ghost predicate Valid()
      reads this, keyTrackers
    {
      && |keyTrackers| == |config.apiKeys|
      && (forall i, j :: 0 <= i < j < |keyTrackers| ==> keyTrackers[i] != keyTrackers[j])
      && (forall i :: 0 <= i < |keyTrackers| ==> keyTrackers[i].Valid(config.rpmLimit))
      && (|config.apiKeys| > 0 ==> currentKeyIndex < |config.apiKeys|)
    }

    ghost predicate ClockAt(now: nat)
      reads this, keyTrackers
    {
      forall i :: 0 <= i < |keyTrackers| ==> keyTrackers[i].RecordedBy(now)
    }

    /** One fresh tracker per key, in key order, and the cursor on the first key. */
    constructor(config: OpenAIConfig)
      ensures Valid() && this.config == config && currentKeyIndex == 0
      ensures |keyTrackers| == |config.apiKeys|
      ensures forall i :: 0 <= i < |keyTrackers| ==>
                fresh(keyTrackers[i]) && keyTrackers[i].admitted == []
                && keyTrackers[i].requestTimes == if config.rpmLimit > 0 then Some([]) else None
    {
      var trackers: seq<KeyTracker> := [];
      for i := 0 to |config.apiKeys|
        invariant |trackers| == i
        invariant forall j, k :: 0 <= j < k < |trackers| ==> trackers[j] != trackers[k]
        invariant forall j :: 0 <= j < |trackers| ==> fresh(trackers[j])
        invariant forall j :: 0 <= j < |trackers| ==> trackers[j].Blank(config.rpmLimit)
      {
        var tracker := new KeyTracker(config.rpmLimit);
        assert tracker.Blank(config.rpmLimit);
        assert forall j :: 0 <= j < |trackers| ==> trackers[j] != tracker;
        trackers := trackers + [tracker];
      }
      forall j | 0 <= j < |trackers| ensures trackers[j].Valid(config.rpmLimit) {
        FreshTrackerValid(trackers[j], config.rpmLimit);
      }
      this.config := config;
      keyTrackers := trackers;
      currentKeyIndex := 0;
    }

    /** Returns the cursor and moves it on to the next key, wrapping around. */
    method GetNextKeyIndex() returns (current: nat)
      requires Valid() && |config.apiKeys| > 0
      modifies this`currentKeyIndex
      ensures Valid()
      ensures current == old(currentKeyIndex) && current < |config.apiKeys|
      ensures currentKeyIndex == Advance(current, |config.apiKeys|)
    {
      current := currentKeyIndex;
      currentKeyIndex := (currentKeyIndex + 1) % |config.apiKeys|;
    }

    /**
     * Waits, if need be, until `tracker` may send, and records the request.
     * `now` is the clock read once the list is locked; a sleep of `wait`
     * leaves the clock at `now + wait + lateness`.
     */
    method WaitForRateLimit(tracker: KeyTracker, now: nat, lateness: nat) returns (wait: nat)
      requires tracker.Valid(config.rpmLimit) && tracker.RecordedBy(now)
      modifies tracker
      ensures tracker.Valid(config.rpmLimit) && tracker.RecordedBy(now + wait + lateness)
      ensures old(tracker.requestTimes).None? ==>
                wait == 0 && tracker.requestTimes == None && tracker.admitted == old(tracker.admitted)
      ensures old(tracker.requestTimes).Some? ==>
                var a := Admit(old(tracker.requestTimes).value, now, config.rpmLimit, lateness);
                a.recorded.Some? && wait == a.wait && tracker.requestTimes == Some(a.times)
                && tracker.admitted == old(tracker.admitted) + [a.recorded.value]
    {
      wait := 0;
      if tracker.requestTimes.None? {
        return;
      }
      ghost var before := tracker.requestTimes.value;
      ghost var a := Admit(before, now, config.rpmLimit, lateness);
      tracker.requestTimes := Some(Retain(tracker.requestTimes.value, now));
      var times := tracker.requestTimes.value;
      if config.rpmLimit > 0 && |times| >= config.rpmLimit {
        if |times| > 0 {
          var elapsed := Elapsed(now, times[0]);
          if elapsed < Window {
            wait := Window - elapsed;
            // the lock is released for the sleep and taken again afterwards
            var woke := now + wait + lateness;
            tracker.requestTimes := Some(Retain(tracker.requestTimes.value, now));
            tracker.requestTimes := Some(tracker.requestTimes.value + [woke]);
            tracker.admitted := tracker.admitted + [woke];
            assert a == Admission(Retain(times, now) + [woke], wait, Some(woke));
            AdmitKeepsConsistent(old(tracker.admitted), before, config.rpmLimit, now, lateness);
            ConsistentTrackerValid(tracker, config.rpmLimit, a.times, old(tracker.admitted) + [woke]);
            RecordNotAfter(old(tracker.admitted), woke, now, woke);
            return;
          }
        }
      }
      if config.rpmLimit > 0 {
        tracker.requestTimes := Some(tracker.requestTimes.value + [now]);
        tracker.admitted := tracker.admitted + [now];
      }
      assert a == Admission(times + [now], 0, Some(now));
      AdmitKeepsConsistent(old(tracker.admitted), before, config.rpmLimit, now, lateness);
      ConsistentTrackerValid(tracker, config.rpmLimit, a.times, old(tracker.admitted) + [now]);
      RecordNotAfter(old(tracker.admitted), now, now, now + lateness);
    }

    /**
     * One translation: refuse when no key is configured; otherwise take the
     * next key, respect its per-minute window, send the prompt and the text,
     * and read the reply.
     */
    method Translate(text: string, targetLang: string, now: nat, lateness: nat, reply: Reply<seq<string>>)
      returns (r: Result<string, string>, sent: Option<ChatRequest>, wait: nat)
      requires Valid() && ClockAt(now)
      modifies this, keyTrackers
      ensures Valid()
      ensures |config.apiKeys| == 0 ==>
                r == Failure(NoKeysMessage) && sent == None && wait == 0
                && currentKeyIndex == old(currentKeyIndex)
      ensures |config.apiKeys| > 0 ==>
                var k := old(currentKeyIndex);
                var tracker := keyTrackers[k];
                && currentKeyIndex == Advance(k, |config.apiKeys|)
                && sent == Some(BuildRequest(config, config.apiKeys[k], SystemPrompt(config, targetLang), text))
                && r == ChatResult(reply)
                && (forall j :: 0 <= j < |keyTrackers| && j != k ==> unchanged(keyTrackers[j]))
                && tracker.RecordedBy(now + wait + lateness)
                && match old(tracker.requestTimes)
                   case None =>
                     wait == 0 && tracker.requestTimes == None && tracker.admitted == old(tracker.admitted)
                   case Some(times) =>
                     var a := Admit(times, now, config.rpmLimit, lateness);
                     a.recorded.Some? && wait == a.wait && tracker.requestTimes == Some(a.times)
                     && tracker.admitted == old(tracker.admitted) + [a.recorded.value]
    {
      if |config.apiKeys| == 0 {
        return Failure(NoKeysMessage), None, 0;
      }
      var keyIndex := GetNextKeyIndex();
      var selectedKey := config.apiKeys[keyIndex];
      var tracker := keyTrackers[keyIndex];
      assert forall j :: 0 <= j < |keyTrackers| && j != keyIndex ==> keyTrackers[j] != tracker;
      wait := WaitForRateLimit(tracker, now, lateness);
      var systemPrompt := SystemPrompt(config, targetLang);
      sent := Some(BuildRequest(config, selectedKey, systemPrompt, text));
      r := ChatResult(reply);
    }
  }

  /**
   * Round robin as a translator performs it: a new translator asked for a key
   * `n + 1` times, `n` being the number of keys, hands out every key once in
   * key order and then the first key again.
   */
  method RoundRobinScenario(config: OpenAIConfig) returns (picked: seq<nat>)
    requires |config.apiKeys| > 0
    ensures picked == Picks(0, |config.apiKeys|, |config.apiKeys| + 1)
    ensures picked[..|config.apiKeys|] == seq(|config.apiKeys|, i => i)
    ensures picked[|config.apiKeys|] == 0
  {
    var n := |config.apiKeys|;
    var translator := new OpenAITranslator(config);
    picked := [];
    for i := 0 to n + 1
      invariant translator.Valid() && translator.config == config
      invariant picked == Picks(0, n, i)
      invariant translator.currentKeyIndex == CursorAfter(0, n, i)
    {
      var current := translator.GetNextKeyIndex();
      PicksSnoc(0, n, i);
      picked := picked + [current];
    }
    RoundRobin(n);
    PicksSnoc(0, n, n);
  }
}
