/** Persistence of sessions in the browser's key/value store, and the
    anonymous per-round export.  The store is a map from keys to stored
    values; JSON encoding is taken to be a faithful round trip, so a stored
    value is the decoded object itself. */
module Storage {
  import opened Types
  import Config

  /** What a key of the store can hold. */
  datatype Blob =
    | SessionJson(session: ArenaSession)
    | HistoryJson(history: seq<ArenaSession>)
    | OtherJson(text: string)

  /** The session `loadCurrentSession` reads from a store: nothing when the
      key is absent or holds something that is not a session. */
  function StoredSession(items: map<string, Blob>): (r: Option<ArenaSession>)
    ensures Config.CurrentSessionKey !in items ==> r == None
    ensures r.Some? <==> Config.CurrentSessionKey in items && items[Config.CurrentSessionKey].SessionJson?
    ensures r.Some? ==> items[Config.CurrentSessionKey] == SessionJson(r.value)
  {
    if Config.CurrentSessionKey in items && items[Config.CurrentSessionKey].SessionJson? then
      Some(items[Config.CurrentSessionKey].session)
    else
      None
  }

  /** The history `loadSessionHistory` reads from a store: the empty list
      when the key is absent or holds something that is not a history. */
  function StoredHistory(items: map<string, Blob>): (h: seq<ArenaSession>)
    ensures Config.SessionHistoryKey !in items ==> h == []
    ensures Config.SessionHistoryKey in items && items[Config.SessionHistoryKey].HistoryJson? ==>
              h == items[Config.SessionHistoryKey].history
  {
    if Config.SessionHistoryKey in items && items[Config.SessionHistoryKey].HistoryJson? then
      items[Config.SessionHistoryKey].history
    else
      []
  }

  class LocalStore {
    var items: map<string, Blob>

    constructor (initial: map<string, Blob>)
      ensures items == initial
    {
      items := initial;
    }

    method SaveCurrentSession(session: ArenaSession)
      modifies this
      ensures items == old(items)[Config.CurrentSessionKey := SessionJson(session)]
      ensures StoredSession(items) == Some(session)
      ensures StoredHistory(items) == StoredHistory(old(items))
    {
      Config.StorageKeysDistinct();
      items := items[Config.CurrentSessionKey := SessionJson(session)];
    }

    method LoadCurrentSession() returns (r: Option<ArenaSession>)
      ensures r == StoredSession(items)
      ensures r.Some? ==> Config.CurrentSessionKey in items
    {
      if Config.CurrentSessionKey in items {
        match items[Config.CurrentSessionKey]
        case SessionJson(s) => r := Some(s);
        case _ => r := None;
      } else {
        r := None;
      }
    }

    /** Removes the current session; a later load finds nothing. */
    method ClearCurrentSession()
      modifies this
      ensures items == old(items) - {Config.CurrentSessionKey}
      ensures StoredSession(items) == None
      ensures StoredHistory(items) == StoredHistory(old(items))
    {
      Config.StorageKeysDistinct();
      items := items - {Config.CurrentSessionKey};
    }

    /** Appends the session at the end of the stored history. */
    method SaveSessionToHistory(session: ArenaSession)
      modifies this
      ensures StoredHistory(items) == StoredHistory(old(items)) + [session]
      ensures StoredSession(items) == StoredSession(old(items))
      ensures forall k :: k != Config.SessionHistoryKey ==>
                (k in items <==> k in old(items)) && (k in items ==> items[k] == old(items)[k])
    {
      Config.StorageKeysDistinct();
      var history := LoadSessionHistory();
      history := history + [session];
      items := items[Config.SessionHistoryKey := HistoryJson(history)];
    }

    method LoadSessionHistory() returns (h: seq<ArenaSession>)
      ensures h == StoredHistory(items)
      ensures Config.SessionHistoryKey !in items ==> h == []
    {
      if Config.SessionHistoryKey in items && items[Config.SessionHistoryKey].HistoryJson? {
        h := items[Config.SessionHistoryKey].history;
      } else {
        h := [];
      }
    }
  }

  /** The anonymous record of one round: its ranking entries' model ids and
      ranks, position by position, and its timestamp. */
  function Anonymise(round: MatchRound): (d: AnonymousRankingData)
    ensures |d.modelIds| == |round.rankings| && |d.ranks| == |round.rankings|
    ensures forall j :: 0 <= j < |round.rankings| ==>
              d.modelIds[j] == round.rankings[j].modelId && d.ranks[j] == round.rankings[j].rank
    ensures d.timestamp == round.timestamp
  {
    AnonymousRankingData(
      seq(|round.rankings|, j requires 0 <= j < |round.rankings| => round.rankings[j].modelId),
      seq(|round.rankings|, j requires 0 <= j < |round.rankings| => round.rankings[j].rank),
      round.timestamp)
  }

  /** One anonymous record per round, in round order. */
  function SessionToAnonymousData(session: ArenaSession): (data: seq<AnonymousRankingData>)
    ensures |data| == |session.rounds|
    ensures forall i :: 0 <= i < |session.rounds| ==> data[i] == Anonymise(session.rounds[i])
  {
    seq(|session.rounds|, i requires 0 <= i < |session.rounds| => Anonymise(session.rounds[i]))
  }

  /** Committing a round extends the export by that round's record alone:
      the records of earlier rounds do not change. */
  lemma ExportAppend(session: ArenaSession, round: MatchRound)
    ensures SessionToAnonymousData(session.(rounds := session.rounds + [round])) ==
            SessionToAnonymousData(session) + [Anonymise(round)]
  {
    var after := session.(rounds := session.rounds + [round]);
    assert after.rounds[|session.rounds|] == round;
  }
}
