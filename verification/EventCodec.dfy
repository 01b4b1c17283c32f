/** Kafka events: "<mode>:<transaction hash>" strings (utils/data_collector.py, model/__init__.py). */
module EventCodec {

  datatype Mode = Full | Partial | LogFilter | GetLogs

  const SEPARATOR := ':'

  datatype Decoded = Event(mode: Mode, hash: string) | Malformed

  /** The string value of each member of `DataCollectionMode`. */
  function Value(mode: Mode): (s: string)
    ensures SEPARATOR !in s
  {
    match mode
    case Full => "full"
    case Partial => "partial"
    case LogFilter => "log_filter"
    case GetLogs => "get_logs"
  }

  function Encode(hash: string, mode: Mode): string
  {
    Value(mode) + [SEPARATOR] + hash
  }

  /** `str.split(sep)`: the parts between separators, at least one. */
  function Split(s: string): (parts: seq<string>)
    ensures |parts| >= 1
  {
    if s == [] then [[]]
    else
      var rest := Split(s[1..]);
      if s[0] == SEPARATOR then [[]] + rest
      else [[s[0]] + rest[0]] + rest[1..]
  }

  /** Unpacking fails unless there are two parts; an unknown mode value fails too. */
  function Decode(event: string): Decoded
  {
    var parts := Split(event);
    if |parts| != 2 then Malformed
    else if parts[0] == Value(Full) then Event(Full, parts[1])
    else if parts[0] == Value(Partial) then Event(Partial, parts[1])
    else if parts[0] == Value(LogFilter) then Event(LogFilter, parts[1])
    else if parts[0] == Value(GetLogs) then Event(GetLogs, parts[1])
    else Malformed
  }

  function Separators(s: string): nat
  {
    if s == [] then 0 else (if s[0] == SEPARATOR then 1 else 0) + Separators(s[1..])
  }

  // ---- splitting ----

  lemma {:induction false} SplitCount(s: string)
    ensures |Split(s)| == Separators(s) + 1
  {
    if s != [] {
      SplitCount(s[1..]);
    }
  }

  lemma {:induction false} SplitNone(s: string)
    requires SEPARATOR !in s
    ensures Split(s) == [s]
  {
    if s != [] {
      SplitNone(s[1..]);
      assert [s[0]] + s[1..] == s;
    }
  }

  lemma {:induction false} SplitAt(a: string, b: string)
    requires SEPARATOR !in a
    ensures Split(a + [SEPARATOR] + b) == [a] + Split(b)
  {
    var s := a + [SEPARATOR] + b;
    if a == [] {
      assert s[1..] == b;
    } else {
      assert s[1..] == a[1..] + [SEPARATOR] + b;
      SplitAt(a[1..], b);
      assert [a[0]] + a[1..] == a;
    }
  }

  lemma {:induction false} NoSeparators(s: string)
    ensures Separators(s) == 0 <==> SEPARATOR !in s
  {
    if s != [] {
      NoSeparators(s[1..]);
    }
  }

  lemma {:induction false} SplitTwo(s: string)
    requires |Split(s)| == 2
    ensures s == Split(s)[0] + [SEPARATOR] + Split(s)[1]
    ensures SEPARATOR !in Split(s)[0] && SEPARATOR !in Split(s)[1]
  {
    SplitCount(s[1..]);
    if s[0] == SEPARATOR {
      NoSeparators(s[1..]);
      SplitNone(s[1..]);
    } else {
      SplitTwo(s[1..]);
    }
  }

  // ---- main results ----

  /** Decoding undoes encoding exactly for the hashes that hold no separator. */
  lemma RoundTrip(hash: string, mode: Mode)
    ensures Decode(Encode(hash, mode)) == Event(mode, hash) <==> SEPARATOR !in hash
    ensures SEPARATOR in hash ==> Decode(Encode(hash, mode)) == Malformed
  {
    SplitAt(Value(mode), hash);
    SplitCount(hash);
    NoSeparators(hash);
    if SEPARATOR !in hash {
      SplitNone(hash);
    }
  }

  /** Every event that decodes is the encoding of what it decodes to; no other string is accepted. */
  lemma DecodeIsInverse(event: string)
    ensures match Decode(event)
            case Event(mode, hash) => Encode(hash, mode) == event && SEPARATOR !in hash
            case Malformed => forall mode, hash :: SEPARATOR !in hash ==> Encode(hash, mode) != event
  {
    if Decode(event).Event? {
      SplitTwo(event);
    } else {
      forall mode, hash | SEPARATOR !in hash && Encode(hash, mode) == event
        ensures false
      {
        RoundTrip(hash, mode);
      }
    }
  }

  /** A string with no separator, or with several, is rejected. */
  lemma OneSeparatorOnly(event: string)
    requires Separators(event) != 1
    ensures Decode(event) == Malformed
  {
    SplitCount(event);
  }

  /** The events of the four modes, letter by letter. */
  lemma EventsAre(hash: string)
    ensures Encode(hash, Full) == "full:" + hash
    ensures Encode(hash, Partial) == "partial:" + hash
    ensures Encode(hash, LogFilter) == "log_filter:" + hash
    ensures Encode(hash, GetLogs) == "get_logs:" + hash
  {
    assert "full" + [':'] == "full:" && "partial" + [':'] == "partial:";
    assert "log_filter" + [':'] == "log_filter:" && "get_logs" + [':'] == "get_logs:";
  }
}
