/**
 * The web application's session bookkeeping: the per-session store
 * `chat_histories`, the steps of a chat turn that touch it, the background
 * summary update, and the idle-session reaper.
 *
 * A concurrent run is an interleaving of these methods. The polling loop that
 * makes a turn wait for a pending summary update appears as the precondition
 * of `StreamData`; the clock reading is the parameter `now`.
 */
module App {
  import opened Text
  import opened Processor

  /** One session's state: rolling summary, busy flag, time of the last request. */
  datatype Record = Record(summary: string, wait: bool, time: real)

  /** The reaper's default idle limit, in seconds. */
  const DEFAULT_TIMEOUT: real := 3600.0

  /** The record a new or unknown session starts with. */
  function FreshRecord(now: real): Record
  {
    Record("", false, now)
  }

  /** The reaper evicts a record idle for strictly longer than `timeout`. */
  predicate Idle(r: Record, now: real, timeout: real) {
    now - r.time > timeout
  }

  /** The records left after one sweep of the reaper. */
  function Sweep(m: map<string, Record>, now: real, timeout: real): (r: map<string, Record>)
    ensures r.Keys <= m.Keys
    ensures forall id :: id in r ==> r[id] == m[id] && !Idle(r[id], now, timeout)
    ensures forall id :: id in m && !Idle(m[id], now, timeout) ==> id in r
  {
    map id | id in m && !Idle(m[id], now, timeout) :: m[id]
  }

  /** A second sweep at the same time removes nothing more. */
  lemma SweepIdempotent(m: map<string, Record>, now: real, timeout: real)
    ensures Sweep(Sweep(m, now, timeout), now, timeout) == Sweep(m, now, timeout)
  {
  }

  /** A record touched at `now` survives, unchanged, a sweep at the same time with a non-negative limit. */
  lemma TouchedSurvivesSweep(m: map<string, Record>, id: string, now: real, timeout: real)
    requires id in m && m[id].time == now && timeout >= 0.0
    ensures id in Sweep(m, now, timeout) && Sweep(m, now, timeout)[id] == m[id]
  {
  }

  /** The answer stream of a turn: `respond_to_query` streaming, with the default number of chunks. */
  function GenerateData(p: Backends, question: string, summary: string, pick: nat): seq<string>
    requires pick < |DEFAULT_RESPONSES|
  {
    RespondToQuery(p, question, summary, DEFAULT_NUM_CHUNKS, true, pick).answer.chunks
  }

  /**
   * The summary a background update commits: the summarizer applied to the
   * question, the stripped full answer regenerated from the turn's snapshot,
   * and the summary stored at that time.
   */
  function NextSummary(p: Backends, question: string, snapshot: string, stored: string, pick: nat): string
    requires pick < |DEFAULT_RESPONSES|
  {
    GenerateChatSummary(p, question, Strip(Concat(GenerateData(p, question, snapshot, pick))), stored)
  }

  /** Drains an answer stream into one text, chunk by chunk. */
  method AccumulateChunks(chunks: seq<string>) returns (responseText: string)
    ensures responseText == Concat(chunks)
    ensures responseText == Join("", chunks)
  {
    responseText := "";
    for i := 0 to |chunks|
      invariant responseText == Concat(chunks[..i])
    {
      ConcatAppend(chunks[..i], chunks[i]);
      assert chunks[..i + 1] == chunks[..i] + [chunks[i]];
      responseText := responseText + chunks[i];
    }
    assert chunks[..|chunks|] == chunks;
    ConcatIsEmptyJoin(chunks);
  }

  /**
   * The computation of a summary update between marking and committing:
   * regenerate the answer from the snapshot, drain it, strip it, summarize.
   */
  method SummarizeTurn(p: Backends, question: string, snapshot: string, stored: string, pick: nat)
    returns (newSummary: string)
    requires pick < |DEFAULT_RESPONSES|
    ensures newSummary == NextSummary(p, question, snapshot, stored, pick)
    ensures newSummary == GenerateChatSummary(p, question, Strip(Join("", GenerateData(p, question, snapshot, pick))), stored)
  {
    var responseData := GenerateData(p, question, snapshot, pick);
    var responseText := AccumulateChunks(responseData);
    var answer := Strip(responseText);
    newSummary := GenerateChatSummary(p, question, answer, stored);
  }

  /** The records behind a map of sessions. */
  ghost function Records(sessions: map<string, Session>): map<string, Record>
    reads sessions.Values
  {
    map id | id in sessions :: sessions[id].View()
  }

  /** The sessions the reaper keeps. */
  ghost function Kept(sessions: map<string, Session>, now: real, timeout: real): map<string, Session>
    reads sessions.Values
  {
    map id | id in sessions && !Idle(sessions[id].View(), now, timeout) :: sessions[id]
  }

  /** Keeping the sessions that are not idle keeps exactly the records a sweep keeps. */
  lemma RecordsOfKept(sessions: map<string, Session>, now: real, timeout: real)
    ensures Records(Kept(sessions, now, timeout)) == Sweep(Records(sessions), now, timeout)
  {
  }

  /** A session record; the store and a running summary update share it by reference. */
  class Session {
    var summary: string
    var wait: bool
    var time: real

    constructor (now: real)
      ensures summary == "" && !wait && time == now
    {
      summary, wait, time := "", false, now;
    }

    function View(): Record
      reads this
    {
      Record(summary, wait, time)
    }
  }

  /** The map `chat_histories` from session id to session record. */
  class Store {
    var histories: map<string, Session>

    /** Every id has a record of its own. */
    ghost predicate Valid()
      reads this
    {
      forall a, b :: a in histories && b in histories && a != b ==> histories[a] != histories[b]
    }

    ghost function Contents(): map<string, Record>
      reads this, histories.Values
    {
      Records(histories)
    }

    constructor ()
      ensures Valid() && Contents() == map[]
    {
      histories := map[];
    }

    /** Opening the chat page registers a new session id with an empty record. */
    method Index(sessionId: string, now: real)
      requires Valid()
      modifies this
      ensures Valid()
      ensures Contents() == old(Contents())[sessionId := FreshRecord(now)]
      ensures sessionId in histories && fresh(histories[sessionId])
      ensures histories == old(histories)[sessionId := histories[sessionId]]
    {
      var history := new Session(now);
      histories := histories[sessionId := history];
    }

    /**
     * A turn request arrives: an unknown id gets a fresh record, and the
     * record's time becomes `now`; its summary and busy flag are kept.
     */
    method Arrive(sessionId: string, now: real) returns (history: Session)
      requires Valid()
      modifies this, histories.Values
      ensures Valid()
      ensures sessionId in histories && history == histories[sessionId]
      ensures sessionId in old(histories) ==> history == old(histories[sessionId])
      ensures histories.Keys == old(histories.Keys) + {sessionId}
      ensures Contents() == old(Contents())[sessionId :=
        (if sessionId in old(Contents()) then old(Contents())[sessionId] else FreshRecord(now)).(time := now)]
    {
      if sessionId !in histories {
        Index(sessionId, now);
      }
      history := histories[sessionId];
      Touch(sessionId, history, now);
    }

    /** The arriving request's time is stored in the session's record. */
    method Touch(sessionId: string, history: Session, now: real)
      requires Valid() && sessionId in histories && histories[sessionId] == history
      modifies history
      ensures Contents() == old(Contents())[sessionId := old(Contents())[sessionId].(time := now)]
    {
      ghost var before := Contents();
      history.time := now;
      forall id | id in histories && id != sessionId
        ensures Contents()[id] == before[id]
      {
        assert histories[id] != history;
      }
    }

    /**
     * A turn once no summary update is pending for its session: the summary
     * snapshot it generates from, and the answer stream it returns. The
     * summary update the turn starts is `SaveHistory`, called with the same
     * question and snapshot.
     */
    method StreamData(p: Backends, question: string, sessionId: string, now: real, pick: nat)
      returns (summary: string, chunks: seq<string>)
      requires Valid() && pick < |DEFAULT_RESPONSES|
      requires sessionId in histories ==> !histories[sessionId].wait
      modifies this, histories.Values
      ensures Valid()
      ensures Contents() == old(Contents())[sessionId :=
        (if sessionId in old(Contents()) then old(Contents())[sessionId] else FreshRecord(now)).(time := now)]
      ensures summary == (if sessionId in old(Contents()) then old(Contents())[sessionId].summary else "")
      ensures summary == Contents()[sessionId].summary && !Contents()[sessionId].wait
      ensures chunks == GenerateData(p, question, summary, pick)
    {
      var history := Arrive(sessionId, now);
      assert Contents()[sessionId] == history.View();
      summary := history.summary;
      chunks := GenerateData(p, question, summary, pick);
    }

    /** The start of a summary update: the session's record is marked busy (no record: nothing happens). */
    method BeginSave(sessionId: string) returns (history: Session?)
      modifies if sessionId in histories then {histories[sessionId]} else {}
      ensures sessionId !in histories ==> history == null
      ensures sessionId in histories ==> history == histories[sessionId]
      ensures history != null ==> history.wait && history.summary == old(history.summary) && history.time == old(history.time)
    {
      if sessionId !in histories {
        return null;
      }
      history := histories[sessionId];
      history.wait := true;
    }

    /**
     * The rest of a summary update: the answer is regenerated from the
     * snapshot and drained, and the summarizer's result on the summary stored
     * now is committed together with clearing the busy flag. The record may
     * meanwhile have left the store; the update then reaches only the
     * detached record.
     */
    method FinishSave(history: Session, p: Backends, question: string, summary: string, pick: nat)
      requires pick < |DEFAULT_RESPONSES|
      modifies history
      ensures history.summary == NextSummary(p, question, summary, old(history.summary), pick)
      ensures !history.wait && history.time == old(history.time)
    {
      var newSummary := SummarizeTurn(p, question, summary, history.summary, pick);
      CommitSummary(history, newSummary);
    }

    /** The end of a summary update: the new summary is stored and the busy flag cleared. */
    method CommitSummary(history: Session, newSummary: string)
      modifies history
      ensures history.summary == newSummary
      ensures !history.wait && history.time == old(history.time)
    {
      history.summary := newSummary;
      history.wait := false;
    }

    /**
     * A whole summary update run without interruption: only the session's own
     * record changes, and a session with no record raises before changing anything.
     */
    method SaveHistory(p: Backends, sessionId: string, question: string, summary: string, pick: nat)
      requires pick < |DEFAULT_RESPONSES|
      modifies if sessionId in histories then {histories[sessionId]} else {}
      ensures sessionId in histories ==>
        && histories[sessionId].summary == NextSummary(p, question, summary, old(histories[sessionId].summary), pick)
        && !histories[sessionId].wait
        && histories[sessionId].time == old(histories[sessionId].time)
    {
      var history := BeginSave(sessionId);
      if history != null {
        FinishSave(history, p, question, summary, pick);
      }
    }

    /** The scheduled job: the reaper with its default limit. */
    method ReapIdleSessions(now: real)
      requires Valid()
      modifies this
      ensures Valid()
      ensures Contents() == Sweep(old(Contents()), now, DEFAULT_TIMEOUT)
    {
      ClearChatHistory(now, DEFAULT_TIMEOUT);
    }

    /** The reaper: every record idle for longer than `timeout` is removed. */
    method ClearChatHistory(now: real, timeout: real)
      requires Valid()
      modifies this
      ensures Valid()
      ensures Contents() == Sweep(old(Contents()), now, timeout)
      ensures histories.Values <= old(histories.Values)
    {
      var sessionIds := histories.Keys;
      ghost var start := histories;
      while sessionIds != {}
        invariant sessionIds <= start.Keys
        invariant histories == map id | id in start && (id in sessionIds || !Idle(start[id].View(), now, timeout)) :: start[id]
        decreases sessionIds
      {
        var sessionId :| sessionId in sessionIds;
        var lastMessageTime := histories[sessionId].time;
        if now - lastMessageTime > timeout {
          histories := histories - {sessionId};
        }
        sessionIds := sessionIds - {sessionId};
      }
      assert histories == Kept(start, now, timeout);
      RecordsOfKept(start, now, timeout);
    }
  }
}
