/**
 * The key/value logging entry points of logpair.go: each turns the
 * attachment map into pairs and writes one record at its own fixed level.
 * None of them stops the process, FatalKV included.
 */
module KeyValue {
  import opened Wrappers
  import opened Levels
  import opened Pairs
  import opened Render
  import opened Logging

  /**
   * Converts kvm and writes at the given level; pairs is the order in
   * which the map was visited.
   */
  method WriteKV(l: Logger, level: Level, msg: string, kvm: map<string, Value>, now: string)
    returns (ghost pairs: seq<Pair>)
    modifies l`lastRecord, l`output
    ensures Listing(pairs, kvm)
    ensures l.Current() == old(l.Current())
    ensures l.Published(old(l.lastRecord), old(l.output), Emitted(l.Current(), l.encode, level, msg, pairs, now))
  {
    var ps := KvMapAsLogPairs(kvm);
    l.Write(level, msg, ps, now);
    pairs := ps;
  }

  method DebugKV(l: Logger, msg: string, kvm: map<string, Value>, now: string) returns (ghost pairs: seq<Pair>)
    modifies l`lastRecord, l`output
    ensures Listing(pairs, kvm)
    ensures l.Current() == old(l.Current())
    ensures l.Published(old(l.lastRecord), old(l.output), Emitted(l.Current(), l.encode, Debug, msg, pairs, now))
  {
    pairs := WriteKV(l, Debug, msg, kvm, now);
  }

  method InfoKV(l: Logger, msg: string, kvm: map<string, Value>, now: string) returns (ghost pairs: seq<Pair>)
    modifies l`lastRecord, l`output
    ensures Listing(pairs, kvm)
    ensures l.Current() == old(l.Current())
    ensures l.Published(old(l.lastRecord), old(l.output), Emitted(l.Current(), l.encode, Info, msg, pairs, now))
  {
    pairs := WriteKV(l, Info, msg, kvm, now);
  }

  method WarnKV(l: Logger, msg: string, kvm: map<string, Value>, now: string) returns (ghost pairs: seq<Pair>)
    modifies l`lastRecord, l`output
    ensures Listing(pairs, kvm)
    ensures l.Current() == old(l.Current())
    ensures l.Published(old(l.lastRecord), old(l.output), Emitted(l.Current(), l.encode, Warning, msg, pairs, now))
  {
    pairs := WriteKV(l, Warning, msg, kvm, now);
  }

  method ErrorKV(l: Logger, msg: string, kvm: map<string, Value>, now: string) returns (ghost pairs: seq<Pair>)
    modifies l`lastRecord, l`output
    ensures Listing(pairs, kvm)
    ensures l.Current() == old(l.Current())
    ensures l.Published(old(l.lastRecord), old(l.output), Emitted(l.Current(), l.encode, Error, msg, pairs, now))
  {
    pairs := WriteKV(l, Error, msg, kvm, now);
  }

  method FatalKV(l: Logger, msg: string, kvm: map<string, Value>, now: string) returns (ghost pairs: seq<Pair>)
    modifies l`lastRecord, l`output
    ensures Listing(pairs, kvm)
    ensures l.Current() == old(l.Current())
    ensures l.Published(old(l.lastRecord), old(l.output), Emitted(l.Current(), l.encode, Fatal, msg, pairs, now))
  {
    pairs := WriteKV(l, Fatal, msg, kvm, now);
  }

  /**
   * An empty message with an empty (or nil) map writes nothing, at any
   * level: the map yields no pairs.
   */
  lemma EmptyMapEmptyMessage(s: Settings, encode: Encoder, level: Level, pairs: seq<Pair>, now: string)
    requires Listing(pairs, map[])
    ensures Emitted(s, encode, level, "", pairs, now) == None
  {
    ListingOfEmptyMap(pairs);
  }

  /**
   * A non-empty map always yields a record at a level the threshold
   * admits, even with an empty message.
   */
  lemma NonEmptyMapWritten(s: Settings, encode: Encoder, level: Level, msg: string,
                           kvm: map<string, Value>, pairs: seq<Pair>, now: string)
    requires Listing(pairs, kvm) && kvm != map[]
    requires Rank(s.threshold) <= Rank(level)
    ensures Emitted(s, encode, level, msg, pairs, now).Some?
  {
    var k :| k in kvm;
    var i :| 0 <= i < |pairs| && pairs[i].key == k;
  }
}
