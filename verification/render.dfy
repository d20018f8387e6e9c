/**
 * The two record renderers of write.go: JSON built by concatenation, the
 * JSON encoder with its fallback, and tab-separated plain text.
 */
module Render {
  import opened Wrappers
  import opened Pairs

  // ---------------------------------------------------------------------
  // JSON by concatenation (no escaping of any text)

  /** The record up to and including the closing quote of the message. */
  function JsonHead(now: string, level: string, msg: string): (r: string)
  {
    "{\"ts\":\"" + now + "\",\"level\":\"" + level + "\",\"msg\":\"" + msg + "\""
  }

  /** One attachment as a top-level JSON member whose value is always quoted. */
  function JsonField(p: Pair): (r: string)
  {
    ",\"" + p.key + "\":\"" + ToText(p.value) + "\""
  }

  /** The members of ps, in the order of ps. */
  function JsonFields(ps: seq<Pair>): (r: string)
  {
    if ps == [] then "" else JsonFields(ps[..|ps| - 1]) + JsonField(ps[|ps| - 1])
  }

  /** The JSON text of a record. */
  function JsonRecord(now: string, level: string, msg: string, ps: seq<Pair>): (r: string)
  {
    var tmp := JsonHead(now, level, msg);
    if |ps| < 1 then tmp + "}" else tmp + JsonFields(ps) + "}"
  }

  method JsonString(now: string, level: string, msg: string, pairs: seq<Pair>) returns (r: string)
    ensures r == JsonRecord(now, level, msg, pairs)
  {
    var tmp := "{\"ts\":\"" + now + "\",\"level\":\"" + level + "\",\"msg\":\"" + msg + "\"";
    if |pairs| < 1 {
      return tmp + "}";
    }
    var buffer := "";
    var value := "";
    for i := 0 to |pairs|
      invariant buffer == JsonFields(pairs[..i])
    {
      var kv := pairs[i];
      match kv.value {
        case Str(s) => value := s;
        case Other(text) => value := text;
      }
      buffer := buffer + ",\"" + kv.key + "\":\"" + value + "\"";
      assert pairs[..i + 1][..i] == pairs[..i];
    }
    assert pairs[..|pairs|] == pairs;
    r := tmp + buffer + "}";
  }

  /** Without attachments the record is exactly the three fixed members. */
  lemma JsonRecordNoPairs(now: string, level: string, msg: string)
    ensures JsonRecord(now, level, msg, []) ==
            "{\"ts\":\"" + now + "\",\"level\":\"" + level + "\",\"msg\":\"" + msg + "\"}"
  {
  }

  /** Rendering the members of two runs of pairs one after the other. */
  lemma {:induction false} JsonFieldsAppend(a: seq<Pair>, b: seq<Pair>)
    ensures JsonFields(a + b) == JsonFields(a) + JsonFields(b)
    decreases |b|
  {
    if b == [] {
      assert a + b == a;
    } else {
      var n := |b| - 1;
      assert JsonFields(a + b) == JsonFields(a + b[..n]) + JsonField(b[n]) by {
        assert (a + b)[..|a + b| - 1] == a + b[..n];
        assert (a + b)[|a + b| - 1] == b[n];
      }
      assert JsonFields(b) == JsonFields(b[..n]) + JsonField(b[n]);
      JsonFieldsAppend(a, b[..n]);
      assert JsonFields(a) + JsonFields(b[..n]) + JsonField(b[n]) == JsonFields(a) + (JsonFields(b[..n]) + JsonField(b[n]));
    }
  }

  /**
   * Each further attachment becomes one more member just before the closing
   * brace: the members appear in the order of the pairs, none is nested.
   */
  lemma JsonRecordAppend(now: string, level: string, msg: string, ps: seq<Pair>, p: Pair)
    ensures JsonRecord(now, level, msg, ps + [p]) ==
            JsonHead(now, level, msg) + JsonFields(ps) + JsonField(p) + "}"
  {
    assert (ps + [p])[..|ps|] == ps;
  }

  // ---------------------------------------------------------------------
  // JSON through the encoder

  /**
   * The JSON encoder, a collaborator: it either encodes the record with
   * timestamp, level, message and the pairs, or fails.
   */
  type Encoder = (string, string, string, seq<Pair>) -> Option<string>

  method JsonMarshalledString(encode: Encoder, now: string, level: string, msg: string, pairs: seq<Pair>)
    returns (r: string)
    ensures encode(now, level, msg, pairs).Some? ==> r == encode(now, level, msg, pairs).value
    ensures encode(now, level, msg, pairs).None? ==> r == JsonRecord(now, level, msg, pairs)
  {
    var b := encode(now, level, msg, pairs);
    if b.None? {
      r := JsonString(now, level, msg, pairs);
      return;
    }
    r := b.value;
  }

  // ---------------------------------------------------------------------
  // Plain text

  /** One attachment as a comma-tab separated key=value segment. */
  function PlainField(p: Pair): (r: string)
  {
    ",\t" + p.key + "=" + ToText(p.value)
  }

  /** The segments of ps, in the order of ps. */
  function PlainFields(ps: seq<Pair>): (r: string)
  {
    if ps == [] then "" else PlainFields(ps[..|ps| - 1]) + PlainField(ps[|ps| - 1])
  }

  /**
   * The plain text of a record. With attachments it is the segments alone:
   * the timestamp, level and message are not part of it.
   */
  function PlainRecord(now: string, level: string, msg: string, ps: seq<Pair>): (r: string)
  {
    var tmp := now + "\t" + level + "\t" + msg;
    if |ps| < 1 then tmp + "\n" else PlainFields(ps) + "\n"
  }

  method PlainString(now: string, level: string, msg: string, pairs: seq<Pair>) returns (r: string)
    ensures r == PlainRecord(now, level, msg, pairs)
  {
    var tmp := now + "\t" + level + "\t" + msg;
    if |pairs| < 1 {
      return tmp + "\n";
    }
    var buffer := "";
    var value := "";
    for i := 0 to |pairs|
      invariant buffer == PlainFields(pairs[..i])
    {
      var kv := pairs[i];
      match kv.value {
        case Str(s) => value := s;
        case Other(text) => value := text;
      }
      buffer := buffer + ",\t" + kv.key + "=" + value;
      assert pairs[..i + 1][..i] == pairs[..i];
    }
    assert pairs[..|pairs|] == pairs;
    r := buffer + "\n";
  }

  /** Without attachments: timestamp, level and message separated by tabs, then a newline. */
  lemma PlainRecordNoPairs(now: string, level: string, msg: string)
    ensures PlainRecord(now, level, msg, []) == now + "\t" + level + "\t" + msg + "\n"
  {
  }

  /** Rendering the segments of two runs of pairs one after the other. */
  lemma {:induction false} PlainFieldsAppend(a: seq<Pair>, b: seq<Pair>)
    ensures PlainFields(a + b) == PlainFields(a) + PlainFields(b)
    decreases |b|
  {
    if b == [] {
      assert a + b == a;
    } else {
      var n := |b| - 1;
      assert PlainFields(a + b) == PlainFields(a + b[..n]) + PlainField(b[n]) by {
        assert (a + b)[..|a + b| - 1] == a + b[..n];
        assert (a + b)[|a + b| - 1] == b[n];
      }
      assert PlainFields(b) == PlainFields(b[..n]) + PlainField(b[n]);
      PlainFieldsAppend(a, b[..n]);
      assert PlainFields(a) + PlainFields(b[..n]) + PlainField(b[n]) == PlainFields(a) + (PlainFields(b[..n]) + PlainField(b[n]));
    }
  }

  /** The segments of a non-empty run of pairs start with those of its first pair. */
  lemma PlainFieldsStart(ps: seq<Pair>)
    requires ps != []
    ensures PlainFields(ps) == PlainField(ps[0]) + PlainFields(ps[1..])
  {
    assert PlainFields([ps[0]]) == PlainField(ps[0]) by {
      assert [ps[0]][..0] == [];
    }
    assert PlainFields([ps[0]] + ps[1..]) == PlainFields([ps[0]]) + PlainFields(ps[1..]) by {
      PlainFieldsAppend([ps[0]], ps[1..]);
    }
    assert [ps[0]] + ps[1..] == ps;
  }

  /**
   * With attachments the plain record begins with the separator of the
   * first pair, whatever the timestamp, level and message: they are dropped.
   */
  lemma PlainRecordDropsHeader(now: string, level: string, msg: string, ps: seq<Pair>)
    requires ps != []
    ensures PlainRecord(now, level, msg, ps) == ",\t" + ps[0].key + "=" + ToText(ps[0].value) + PlainFields(ps[1..]) + "\n"
    ensures PlainRecord(now, level, msg, ps) == PlainRecord("", "", "", ps)
  {
    PlainFieldsStart(ps);
  }
}
