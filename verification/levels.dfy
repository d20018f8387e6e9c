/**
 * Severity levels, output formats and the severity-name parser of the
 * chatty logging package (chatty.go).
 */
module Levels {

  /** The five severity levels, in increasing order of importance. */
  datatype Level = Debug | Info | Warning | Error | Fatal

  /** The two output formats. */
  datatype Format = Json | Plain

  /** The text of each level, as the package's string constants spell it. */
  function LevelName(l: Level): (s: string)
    ensures |s| >= 4
  {
    match l
    case Debug => "debug"
    case Info => "info"
    case Warning => "warning"
    case Error => "error"
    case Fatal => "fatal"
  }

  /** The text of each format. */
  function FormatName(f: Format): (s: string)
    ensures |s| >= 4
    ensures s == "json" <==> f == Json
  {
    match f
    case Json => "json"
    case Plain => "plain"
  }

  lemma LevelNameInjective(a: Level, b: Level)
    ensures LevelName(a) == LevelName(b) <==> a == b
  {
    if a != b {
      assert LevelName(a)[..2] != LevelName(b)[..2] || LevelName(a)[0] != LevelName(b)[0];
    }
  }

  /** The position of a level in the severity ranking used to filter records. */
  function Rank(l: Level): (r: nat)
    ensures r <= 4
    ensures r == 0 <==> l == Debug
    ensures r == 4 <==> l == Fatal
  {
    match l
    case Debug => 0
    case Info => 1
    case Warning => 2
    case Error => 3
    case Fatal => 4
  }

  /** The ranking orders the levels strictly: distinct levels have distinct ranks. */
  lemma RankInjective(a: Level, b: Level)
    ensures Rank(a) == Rank(b) ==> a == b
  {
  }

  // ---------------------------------------------------------------------
  // Text normalisation (ASCII approximations of strings.TrimSpace and
  // strings.ToLower)

  predicate IsSpace(c: char)
  {
    c == ' ' || c == '\t' || c == '\n' || c == '\r' || c == '\U{000B}' || c == '\U{000C}'
  }

  function LowerChar(c: char): (d: char)
    ensures 'A' <= c <= 'Z' ==> d as int == c as int + 32
    ensures !('A' <= c <= 'Z') ==> d == c
  {
    if 'A' <= c <= 'Z' then (c as int + 32) as char else c
  }

  /** Lower-cases the ASCII letters of s. */
  function ToLower(s: string): (r: string)
  {
    if s == [] then [] else [LowerChar(s[0])] + ToLower(s[1..])
  }

  /** Drops the leading white space. */
  function TrimLeft(s: string): (r: string)
  {
    if s != [] && IsSpace(s[0]) then TrimLeft(s[1..]) else s
  }

  /** Drops the trailing white space. */
  function TrimRight(s: string): (r: string)
  {
    if s != [] && IsSpace(s[|s| - 1]) then TrimRight(s[..|s| - 1]) else s
  }

  /** Removes the white space at both ends of s. */
  function TrimSpace(s: string): (r: string)
  {
    TrimRight(TrimLeft(s))
  }

  lemma {:induction false} ToLowerSpec(s: string)
    ensures |ToLower(s)| == |s|
    ensures forall i :: 0 <= i < |s| ==> ToLower(s)[i] == LowerChar(s[i])
  {
    if s != [] {
      ToLowerSpec(s[1..]);
    }
  }

  /** TrimLeft removes exactly the white space before the first other character. */
  lemma {:induction false} TrimLeftSpec(s: string)
    ensures |TrimLeft(s)| <= |s| && TrimLeft(s) == s[|s| - |TrimLeft(s)|..]
    ensures forall i :: 0 <= i < |s| - |TrimLeft(s)| ==> IsSpace(s[i])
    ensures TrimLeft(s) == [] || !IsSpace(TrimLeft(s)[0])
  {
    if s != [] && IsSpace(s[0]) {
      var t := TrimLeft(s[1..]);
      TrimLeftSpec(s[1..]);
      assert TrimLeft(s) == t;
      assert s[1..][|s| - 1 - |t|..] == s[|s| - |t|..];
      forall i | 1 <= i < |s| - |t| ensures IsSpace(s[i]) {
        assert s[i] == s[1..][i - 1];
      }
    }
  }

  /** TrimRight removes exactly the white space after the last other character. */
  lemma {:induction false} TrimRightSpec(s: string)
    ensures |TrimRight(s)| <= |s| && TrimRight(s) == s[..|TrimRight(s)|]
    ensures forall i :: |TrimRight(s)| <= i < |s| ==> IsSpace(s[i])
    ensures TrimRight(s) == [] || !IsSpace(TrimRight(s)[|TrimRight(s)| - 1])
  {
    if s != [] && IsSpace(s[|s| - 1]) {
      TrimRightSpec(s[..|s| - 1]);
    }
  }

  /**
   * TrimSpace keeps a contiguous middle part of s that neither starts nor
   * ends with white space, and everything it drops is white space.
   */
  lemma TrimSpaceSpec(s: string)
    ensures exists i, j :: 0 <= i <= j <= |s| && TrimSpace(s) == s[i..j] &&
                           (forall k :: 0 <= k < i ==> IsSpace(s[k])) &&
                           (forall k :: j <= k < |s| ==> IsSpace(s[k]))
    ensures TrimSpace(s) == [] || (!IsSpace(TrimSpace(s)[0]) && !IsSpace(TrimSpace(s)[|TrimSpace(s)| - 1]))
  {
    var l := TrimLeft(s);
    TrimLeftSpec(s);
    TrimRightSpec(l);
    var r := TrimRight(l);
    var i := |s| - |l|;
    assert r == s[i..i + |r|];
    forall k | i + |r| <= k < |s| ensures IsSpace(s[k]) {
      assert s[k] == l[k - i];
    }
    if r != [] {
      assert r[0] == l[0];
    }
  }

  /** The form in which a severity name is compared with the mnemonics. */
  function Normalise(s: string): (r: string)
    ensures |r| <= |s|
  {
    TrimSpaceSpec(s);
    ToLowerSpec(TrimSpace(s));
    ToLower(TrimSpace(s))
  }

  /**
   * The normal form has no upper-case ASCII letter and neither starts nor
   * ends with white space.
   */
  lemma NormaliseSpec(s: string)
    ensures forall i :: 0 <= i < |Normalise(s)| ==> !('A' <= Normalise(s)[i] <= 'Z')
    ensures Normalise(s) == [] || (!IsSpace(Normalise(s)[0]) && !IsSpace(Normalise(s)[|Normalise(s)| - 1]))
  {
    var t := TrimSpace(s);
    TrimSpaceSpec(s);
    ToLowerSpec(t);
    forall i | 0 <= i < |t| ensures IsSpace(ToLower(t)[i]) == IsSpace(t[i]) {
      assert ToLower(t)[i] == LowerChar(t[i]);
    }
  }

  // ---------------------------------------------------------------------
  // The severity parser

  /** Why a severity name was not accepted. */
  datatype ParseError = EmptyLevel | UnknownLevel(input: string)

  /** The text of the parser's error values. */
  function ErrorText(e: ParseError): (r: string)
    ensures r != []
    ensures r[0] == 'e' <==> e.EmptyLevel?
    ensures e.UnknownLevel? ==> |e.input| < |r| && r[|r| - |e.input|..] == e.input
  {
    match e
    case EmptyLevel => "empty severity level"
    case UnknownLevel(input) => "unknown severity level " + input
  }

  /**
   * What the parser does with a name: it accepts it, it falls back to the
   * current threshold with an error, or it takes a slice of a mnemonic
   * beyond that mnemonic's length, which aborts the program.
   */
  datatype Guess =
    | Parsed(level: Level)
    | Fallback(level: Level, error: ParseError)
    | SliceOutOfRange(mnemonic: string)

  /** The mnemonics in the order the parser tries them, each with its level. */
  const Mnemonics: seq<(string, Level)> := [
    ("debug", Debug), ("verbose", Debug),
    ("info", Info), ("normal", Info),
    ("warning", Warning),
    ("error", Error),
    ("fatal", Fatal), ("critical", Fatal)
  ]

  /**
   * Tries the mnemonics from position i on, in order: the first whose
   * leading |x| characters equal x decides the level; slicing a mnemonic
   * shorter than x goes out of range; when none matches the result is
   * fallback.
   */
  function MatchFrom(x: string, i: nat, fallback: Guess): (g: Guess)
    decreases |Mnemonics| - i
    ensures g == fallback || g.SliceOutOfRange? || g.Parsed?
  {
    if i >= |Mnemonics| then fallback
    else if |x| > |Mnemonics[i].0| then SliceOutOfRange(Mnemonics[i].0)
    else if Mnemonics[i].0[..|x|] == x then Parsed(Mnemonics[i].1)
    else MatchFrom(x, i + 1, fallback)
  }

  /**
   * The level named by sl. The empty string, and a name that matches no
   * mnemonic, give back the current threshold together with an error.
   */
  function GuessSeverityLevel(sl: string, current: Level): (g: Guess)
    ensures sl == "" ==> g == Fallback(current, EmptyLevel)
    ensures g.Fallback? ==> g.level == current
    ensures g.Fallback? && sl != "" ==> g.error == UnknownLevel(sl)
  {
    if sl == "" then Fallback(current, EmptyLevel)
    else MatchFrom(Normalise(sl), 0, Fallback(current, UnknownLevel(sl)))
  }

  // ---------------------------------------------------------------------
  // Properties of the parser

  /**
   * When x fits in every mnemonic from position i on, no slice goes out of
   * range, and the result is that of the first of them that x is a prefix
   * of, or the fallback when there is none.
   */
  lemma {:induction false} MatchFromFitting(x: string, i: nat, fallback: Guess)
    requires forall k :: i <= k < |Mnemonics| ==> |x| <= |Mnemonics[k].0|
    decreases |Mnemonics| - i
    ensures (forall k :: i <= k < |Mnemonics| ==> !(x <= Mnemonics[k].0)) ==> MatchFrom(x, i, fallback) == fallback
    ensures forall k :: i <= k < |Mnemonics| && x <= Mnemonics[k].0 && (forall j :: i <= j < k ==> !(x <= Mnemonics[j].0)) ==>
                        MatchFrom(x, i, fallback) == Parsed(Mnemonics[k].1)
  {
    if i < |Mnemonics| {
      MatchFromFitting(x, i + 1, fallback);
      var m := Mnemonics[i].0;
      assert |x| <= |m|;
      if x <= m {
        assert MatchFrom(x, i, fallback) == Parsed(Mnemonics[i].1) by {
          assert m[..|x|] == x;
        }
        forall k | i <= k < |Mnemonics| && x <= Mnemonics[k].0 && (forall j :: i <= j < k ==> !(x <= Mnemonics[j].0))
          ensures MatchFrom(x, i, fallback) == Parsed(Mnemonics[k].1)
        {
          assert k == i;
        }
      } else {
        assert MatchFrom(x, i, fallback) == MatchFrom(x, i + 1, fallback) by {
          assert m[..|x|] != x;
        }
        forall k | i <= k < |Mnemonics| && x <= Mnemonics[k].0 && (forall j :: i <= j < k ==> !(x <= Mnemonics[j].0))
          ensures MatchFrom(x, i, fallback) == Parsed(Mnemonics[k].1)
        {
          assert k != i;
        }
      }
    }
  }

  /** A level found by matching is that of a mnemonic x is a prefix of. */
  lemma {:induction false} MatchFromParsed(x: string, i: nat, fallback: Guess)
    requires !fallback.Parsed?
    requires MatchFrom(x, i, fallback).Parsed?
    decreases |Mnemonics| - i
    ensures exists k :: i <= k < |Mnemonics| && x <= Mnemonics[k].0 && Mnemonics[k].1 == MatchFrom(x, i, fallback).level
  {
    if |x| <= |Mnemonics[i].0| && Mnemonics[i].0[..|x|] == x {
      assert x <= Mnemonics[i].0;
    } else {
      MatchFromParsed(x, i + 1, fallback);
    }
  }

  /** Whatever level the parser accepts is named by a mnemonic the normal form of sl begins. */
  lemma GuessParsedIsPrefix(sl: string, current: Level)
    requires GuessSeverityLevel(sl, current).Parsed?
    ensures exists k :: 0 <= k < |Mnemonics| && Normalise(sl) <= Mnemonics[k].0 &&
                        Mnemonics[k].1 == GuessSeverityLevel(sl, current).level
  {
    MatchFromParsed(Normalise(sl), 0, Fallback(current, UnknownLevel(sl)));
  }

  /** Below a prefix match at k there is a first one. */
  lemma FirstHit(x: string, k: nat)
    requires k < |Mnemonics| && x <= Mnemonics[k].0
    ensures exists i :: 0 <= i <= k && x <= Mnemonics[i].0 && forall j :: 0 <= j < i ==> !(x <= Mnemonics[j].0)
    decreases k
  {
    if exists j :: 0 <= j < k && x <= Mnemonics[j].0 {
      var j :| 0 <= j < k && x <= Mnemonics[j].0;
      FirstHit(x, j);
    }
  }

  /**
   * A string of at most four characters fits in every mnemonic, so the
   * matching never slices out of range.
   */
  lemma MatchShort(x: string, fallback: Guess)
    requires |x| <= 4 && fallback.Fallback?
    ensures !MatchFrom(x, 0, fallback).SliceOutOfRange?
    ensures (forall i :: 0 <= i < |Mnemonics| ==> !(x <= Mnemonics[i].0)) ==> MatchFrom(x, 0, fallback) == fallback
    ensures forall i :: 0 <= i < |Mnemonics| && x <= Mnemonics[i].0 && (forall j :: 0 <= j < i ==> !(x <= Mnemonics[j].0)) ==>
                        MatchFrom(x, 0, fallback) == Parsed(Mnemonics[i].1)
  {
    assert forall k :: 0 <= k < |Mnemonics| ==> |Mnemonics[k].0| >= 4;
    MatchFromFitting(x, 0, fallback);
    if k :| 0 <= k < |Mnemonics| && x <= Mnemonics[k].0 {
      FirstHit(x, k);
    }
  }

  /**
   * A non-empty name whose normal form x has at most four characters never
   * aborts: it resolves to the first mnemonic x is a prefix of, or falls
   * back to the current threshold with an "unknown" error.
   */
  lemma GuessShortName(sl: string, x: string, current: Level)
    requires sl != "" && x == Normalise(sl) && |x| <= 4
    ensures !GuessSeverityLevel(sl, current).SliceOutOfRange?
    ensures (forall i :: 0 <= i < |Mnemonics| ==> !(x <= Mnemonics[i].0)) ==>
              GuessSeverityLevel(sl, current) == Fallback(current, UnknownLevel(sl))
    ensures forall i :: 0 <= i < |Mnemonics| && x <= Mnemonics[i].0 && (forall j :: 0 <= j < i ==> !(x <= Mnemonics[j].0)) ==>
                        GuessSeverityLevel(sl, current) == Parsed(Mnemonics[i].1)
  {
    MatchShort(x, Fallback(current, UnknownLevel(sl)));
  }

  lemma NormaliseEmpty()
    ensures Normalise("") == ""
  {
  }

  /** A name without white space or upper case letters is matched as it is. */
  lemma GuessNormalName(sl: string, current: Level)
    requires sl != ""
    requires forall i :: 0 <= i < |sl| ==> !IsSpace(sl[i]) && !('A' <= sl[i] <= 'Z')
    ensures GuessSeverityLevel(sl, current) == MatchFrom(sl, 0, Fallback(current, UnknownLevel(sl)))
  {
    NormaliseIdentity(sl);
  }

  /** s is made of lower-case ASCII letters only. */
  predicate LowerWord(s: string)
  {
    s == [] || ('a' <= s[0] <= 'z' && LowerWord(s[1..]))
  }

  lemma {:induction false} LowerWordChars(s: string)
    requires LowerWord(s)
    ensures forall i :: 0 <= i < |s| ==> 'a' <= s[i] <= 'z'
  {
    if s != [] {
      LowerWordChars(s[1..]);
      forall i | 1 <= i < |s| ensures 'a' <= s[i] <= 'z' {
        assert s[i] == s[1..][i - 1];
      }
    }
  }

  /** A word of lower-case ASCII letters is its own normal form. */
  lemma LowerWordNormal(s: string)
    requires LowerWord(s)
    ensures Normalise(s) == s
  {
    LowerWordChars(s);
    NormaliseIdentity(s);
  }

  /** A non-empty word of lower-case ASCII letters is matched as it is. */
  lemma GuessLowerWord(sl: string, current: Level)
    requires sl != "" && LowerWord(sl)
    ensures GuessSeverityLevel(sl, current) == MatchFrom(sl, 0, Fallback(current, UnknownLevel(sl)))
  {
    LowerWordChars(sl);
    GuessNormalName(sl, current);
  }

  /** A name without white space or upper case letters is its own normal form. */
  lemma NormaliseIdentity(s: string)
    requires forall i :: 0 <= i < |s| ==> !IsSpace(s[i]) && !('A' <= s[i] <= 'Z')
    ensures Normalise(s) == s
  {
    assert TrimLeft(s) == s;
    assert TrimRight(s) == s;
    ToLowerSpec(s);
  }

  /** Every non-empty name whose normal form is a prefix of "debug" selects debug. */
  lemma GuessDebugPrefix(sl: string, current: Level)
    requires sl != "" && Normalise(sl) <= "debug"
    ensures GuessSeverityLevel(sl, current) == Parsed(Debug)
  {
    var x := Normalise(sl);
    assert |x| <= |Mnemonics[0].0|;
    assert Mnemonics[0].0[..|x|] == x;
  }

  /** A name that normalises to more than five characters aborts on "debug". */
  lemma GuessLongName(sl: string, current: Level)
    requires |Normalise(sl)| > 5
    ensures GuessSeverityLevel(sl, current) == SliceOutOfRange("debug")
  {
    var x := Normalise(sl);
    assert sl != "" by {
      NormaliseEmpty();
    }
    assert Mnemonics[0].0 == "debug";
    assert MatchFrom(x, 0, Fallback(current, UnknownLevel(sl))) == SliceOutOfRange("debug");
  }

  /**
   * A five-character normal form selects debug when it is "debug" or
   * "verbo" and otherwise aborts on "info".
   */
  lemma GuessFiveCharName(sl: string, current: Level)
    requires |Normalise(sl)| == 5
    ensures Normalise(sl) == "debug" || Normalise(sl) == "verbo" ==> GuessSeverityLevel(sl, current) == Parsed(Debug)
    ensures Normalise(sl) != "debug" && Normalise(sl) != "verbo" ==> GuessSeverityLevel(sl, current) == SliceOutOfRange("info")
  {
    var x := Normalise(sl);
    var fb := Fallback(current, UnknownLevel(sl));
    assert sl != "" by {
      NormaliseEmpty();
    }
    assert GuessSeverityLevel(sl, current) == MatchFrom(x, 0, fb);
    assert Mnemonics[0] == ("debug", Debug) && Mnemonics[1] == ("verbose", Debug) && Mnemonics[2].0 == "info";
    assert MatchFrom(x, 2, fb) == SliceOutOfRange("info");
    assert "verbose"[..5] == "verbo";
    assert MatchFrom(x, 1, fb) == if x == "verbo" then Parsed(Debug) else MatchFrom(x, 2, fb);
    assert "debug"[..5] == "debug";
    assert MatchFrom(x, 0, fb) == if x == "debug" then Parsed(Debug) else MatchFrom(x, 1, fb);
  }

  /** White space around the name and upper case letters do not matter. */
  lemma GuessIgnoresCaseAndSpace(current: Level)
    ensures GuessSeverityLevel("  DeB ", current) == Parsed(Debug)
  {
    var s := "  DeB ";
    assert !IsSpace('D');
    assert TrimLeft(s[2..]) == s[2..];
    assert s[1..][1..] == s[2..];
    assert TrimLeft(s) == "DeB ";
    assert "DeB "[..3] == "DeB";
    assert TrimRight("DeB ") == "DeB";
    assert ToLower("DeB") == "deb";
    GuessDebugPrefix(s, current);
  }

  /** A name made only of white space normalises to "" and so selects debug. */
  lemma GuessBlankName(sl: string, current: Level)
    requires sl != ""
    requires forall i :: 0 <= i < |sl| ==> IsSpace(sl[i])
    ensures GuessSeverityLevel(sl, current) == Parsed(Debug)
  {
    TrimLeftAllSpace(sl);
    assert Normalise(sl) == "";
    GuessDebugPrefix(sl, current);
  }

  /** A text made of white space only is trimmed away completely. */
  lemma {:induction false} TrimLeftAllSpace(s: string)
    requires forall i :: 0 <= i < |s| ==> IsSpace(s[i])
    ensures TrimLeft(s) == ""
  {
    if s != [] {
      assert IsSpace(s[0]);
      assert forall i :: 0 <= i < |s[1..]| ==> s[1..][i] == s[i + 1];
      TrimLeftAllSpace(s[1..]);
    }
  }

  /**
   * A single letter that is neither white space nor upper case selects
   * the level of the first mnemonic, in case order, that starts with it.
   */
  lemma GuessLetter(c: char, k: nat, current: Level)
    requires !IsSpace(c) && !('A' <= c <= 'Z')
    requires k < |Mnemonics| && Mnemonics[k].0[0] == c
    requires forall j :: 0 <= j < k ==> Mnemonics[j].0[0] != c
    ensures GuessSeverityLevel([c], current) == Parsed(Mnemonics[k].1)
  {
    var x := [c];
    GuessNormalName(x, current);
    assert forall j :: 0 <= j < |Mnemonics| ==> |x| <= |Mnemonics[j].0|;
    MatchFromFitting(x, 0, Fallback(current, UnknownLevel(x)));
    assert x <= Mnemonics[k].0;
    assert forall j :: 0 <= j < k ==> !(x <= Mnemonics[j].0);
  }

  /**
   * Single letters select the first level, in the order of the switch,
   * whose mnemonic or synonym starts with them: debug and info.
   */
  lemma GuessInitialsLow(current: Level)
    ensures GuessSeverityLevel("d", current) == Parsed(Debug)
    ensures GuessSeverityLevel("v", current) == Parsed(Debug)
    ensures GuessSeverityLevel("i", current) == Parsed(Info)
    ensures GuessSeverityLevel("n", current) == Parsed(Info)
  {
    GuessLetter('d', 0, current);
    GuessLetter('v', 1, current);
    GuessLetter('i', 2, current);
    GuessLetter('n', 3, current);
  }

  /** Single letters: "w" selects warning and "e" error, not an earlier case. */
  lemma GuessInitialsWarningError(current: Level)
    ensures GuessSeverityLevel("w", current) == Parsed(Warning)
    ensures GuessSeverityLevel("e", current) == Parsed(Error)
  {
    GuessLetter('w', 4, current);
    GuessLetter('e', 5, current);
  }

  /** Single letters: "f" and "c" (from "critical") both select fatal. */
  lemma GuessInitialsFatal(current: Level)
    ensures GuessSeverityLevel("f", current) == Parsed(Fatal)
    ensures GuessSeverityLevel("c", current) == Parsed(Fatal)
  {
    GuessLetter('f', 6, current);
    GuessLetter('c', 7, current);
  }

  /** Of the full level names only "debug" and "info" are accepted. */
  lemma GuessAcceptedFullNames(current: Level)
    ensures GuessSeverityLevel("debug", current) == Parsed(Debug)
    ensures GuessSeverityLevel("info", current) == Parsed(Info)
  {
    assert GuessSeverityLevel("debug", current) == Parsed(Debug) by {
      assert MatchFrom("debug", 0, Fallback(current, UnknownLevel("debug"))) == Parsed(Debug) by {
      }
      GuessLowerWord("debug", current);
    }
    assert GuessSeverityLevel("info", current) == Parsed(Info) by {
      assert MatchFrom("info", 0, Fallback(current, UnknownLevel("info"))) == Parsed(Info) by {
        assert forall i :: 0 <= i < 2 ==> Mnemonics[i].0[0] != "info"[0];
      }
      GuessLowerWord("info", current);
    }
  }

  /** The five-character names "error" and "fatal" abort when slicing "info". */
  lemma GuessFiveCharFullNames(current: Level)
    ensures GuessSeverityLevel("error", current) == SliceOutOfRange("info")
    ensures GuessSeverityLevel("fatal", current) == SliceOutOfRange("info")
  {
    LowerWordNormal("error");
    assert "error"[0] != "debug"[0] && "error"[0] != "verbo"[0];
    GuessFiveCharName("error", current);
    LowerWordNormal("fatal");
    assert "fatal"[0] != "debug"[0] && "fatal"[0] != "verbo"[0];
    GuessFiveCharName("fatal", current);
  }


  /** The longer names "warning" and "critical" abort when slicing "debug". */
  lemma GuessLongFullNames(current: Level)
    ensures GuessSeverityLevel("warning", current) == SliceOutOfRange("debug")
    ensures GuessSeverityLevel("critical", current) == SliceOutOfRange("debug")
  {
    assert GuessSeverityLevel("warning", current) == SliceOutOfRange("debug") by {
      assert MatchFrom("warning", 0, Fallback(current, UnknownLevel("warning"))) == SliceOutOfRange("debug") by {
      }
      GuessLowerWord("warning", current);
    }
    assert GuessSeverityLevel("critical", current) == SliceOutOfRange("debug") by {
      assert MatchFrom("critical", 0, Fallback(current, UnknownLevel("critical"))) == SliceOutOfRange("debug") by {
      }
      GuessLowerWord("critical", current);
    }
  }


  /**
   * The mnemonics start with pairwise different letters, so a non-empty
   * text is a prefix of at most one of them.
   */
  lemma PrefixFitsOneMnemonic(x: string, i: nat, j: nat)
    requires x != [] && i < |Mnemonics| && j < |Mnemonics|
    requires x <= Mnemonics[i].0 && x <= Mnemonics[j].0
    ensures i == j
  {
    assert Mnemonics[i].0[0] == x[0] == Mnemonics[j].0[0];
    var initials := "dvinwefc";
    assert forall k :: 0 <= k < |Mnemonics| ==> Mnemonics[k].0[0] == initials[k];
  }

  /** A name that matches nothing keeps the current threshold and reports it. */
  lemma GuessUnknownName(current: Level)
    ensures GuessSeverityLevel("xyz", current) == Fallback(current, UnknownLevel("xyz"))
  {
    assert GuessSeverityLevel("xyz", current) == Fallback(current, UnknownLevel("xyz")) by {
      assert MatchFrom("xyz", 0, Fallback(current, UnknownLevel("xyz"))) == Fallback(current, UnknownLevel("xyz")) by {
        assert forall i :: 0 <= i < 8 ==> Mnemonics[i].0[0] != "xyz"[0];
      }
      GuessLowerWord("xyz", current);
    }
  }

  /**
   * Only the ends of a name are trimmed: "d e" keeps its inner space, is
   * a prefix of no mnemonic and falls back.
   */
  lemma GuessInnerSpaceKept(current: Level)
    ensures GuessSeverityLevel("d e", current) == Fallback(current, UnknownLevel("d e"))
  {
    var x := "d e";
    assert Normalise(x) == x by {
      assert x[0] == 'd' && x[|x| - 1] == 'e';
      assert TrimLeft(x) == x;
      assert TrimRight(x) == x;
      ToLowerSpec(x);
    }
    assert forall i :: 0 <= i < |Mnemonics| ==> !(x <= Mnemonics[i].0) by {
      forall i | 0 <= i < |Mnemonics| ensures !(x <= Mnemonics[i].0) {
        assert Mnemonics[i].0[1] != ' ';
      }
    }
    MatchShort(x, Fallback(current, UnknownLevel(x)));
  }
}
