/** The message log of the chat: an append-only sequence of entries
    `{id, type, data}`, where each new entry takes as its id the length of
    the log before the append plus one (src/App.js:50-53, 123-126). */
module Log {

  /** Who produced a message: this endpoint (`'local'`) or the peer (`'remote'`). */
  datatype Origin = Local | Remote

  datatype Message = Message(id: nat, origin: Origin, data: string)

  /** A message without its id: what a caller hands to the log. */
  datatype Entry = Entry(origin: Origin, data: string)

  /** The ids of the log are exactly 1, 2, ..., |log| in order. */
  predicate WellNumbered(log: seq<Message>)
  {
    forall i :: 0 <= i < |log| ==> log[i].id == i + 1
  }

  /** The pure updater handed to `setMessages`: keep the current log and add
      one entry numbered after it. */
  function Append(log: seq<Message>, origin: Origin, data: string): (r: seq<Message>)
    ensures |r| == |log| + 1
    ensures r[..|log|] == log
    ensures r[|log|].id == |log| + 1 && r[|log|].origin == origin && r[|log|].data == data
    ensures WellNumbered(log) ==> WellNumbered(r)
  {
    log + [Message(|log| + 1, origin, data)]
  }

  /** The log produced by applying the updater once per entry, starting from
      the empty log that `useState([])` creates. */
  function Replay(entries: seq<Entry>): (r: seq<Message>)
    ensures |r| == |entries|
    decreases |entries|
  {
    if entries == [] then []
    else
      var last := entries[|entries| - 1];
      Append(Replay(entries[..|entries| - 1]), last.origin, last.data)
  }

  /** The entries of a log, ids dropped. */
  function Strip(log: seq<Message>): (r: seq<Entry>)
    ensures |r| == |log|
    ensures forall i :: 0 <= i < |log| ==> r[i].origin == log[i].origin && r[i].data == log[i].data
  {
    seq(|log|, i requires 0 <= i < |log| => Entry(log[i].origin, log[i].data))
  }

  /** The i-th message of a replayed log carries id i + 1 and the i-th entry. */
  lemma {:induction false} ReplayAt(entries: seq<Entry>, i: nat)
    requires i < |entries|
    ensures Replay(entries)[i] == Message(i + 1, entries[i].origin, entries[i].data)
  {
    var n := |entries|;
    var prefix := entries[..n - 1];
    if i < n - 1 {
      ReplayAt(prefix, i);
      assert Replay(entries)[..n - 1] == Replay(prefix);
    }
  }

  /** A log is numbered 1..n exactly when it is what the updater produces
      from its own entries: numbering carries no information of its own. */
  lemma NumberedIffReplay(log: seq<Message>)
    ensures WellNumbered(log) <==> log == Replay(Strip(log))
  {
    var es := Strip(log);
    if WellNumbered(log) {
      forall i | 0 <= i < |log| ensures log[i] == Replay(es)[i] {
        ReplayAt(es, i);
      }
    }
    if log == Replay(es) {
      forall i | 0 <= i < |log| ensures log[i].id == i + 1 {
        ReplayAt(es, i);
      }
    }
  }

  /** Ids in a numbered log strictly increase along the log, so no two
      messages share an id. */
  lemma NumberedIdsIncrease(log: seq<Message>, i: nat, j: nat)
    requires WellNumbered(log)
    requires i < j < |log|
    ensures log[i].id < log[j].id
  {
  }

  /** The texts of the local messages of a log, in log order. */
  function LocalTexts(log: seq<Message>): (r: seq<string>)
    ensures |r| <= |log|
  {
    if log == [] then []
    else (if log[0].origin == Local then [log[0].data] else []) + LocalTexts(log[1..])
  }

  lemma {:induction false} LocalTextsConcat(a: seq<Message>, b: seq<Message>)
    ensures LocalTexts(a + b) == LocalTexts(a) + LocalTexts(b)
  {
    if a != [] {
      assert (a + b)[1..] == a[1..] + b;
      LocalTextsConcat(a[1..], b);
    } else {
      assert a + b == b;
    }
  }

  /** Appending a local message adds its text to the local texts; appending a
      remote message leaves them as they were. */
  lemma AppendLocalTexts(log: seq<Message>, origin: Origin, data: string)
    ensures LocalTexts(Append(log, origin, data)) ==
            LocalTexts(log) + (if origin == Local then [data] else [])
  {
    LocalTextsConcat(log, [Message(|log| + 1, origin, data)]);
  }
}
