/** The three log levels, their order and the per-level constants of the logger. */
module Levels {

  /** Info < Warn < Error, numbered 0, 1, 2 as in the source enumeration. */
  datatype LogLevel = Info | Warn | Error

  /** The numeric value of the enumeration member. */
  function Rank(l: LogLevel): nat {
    match l
    case Info => 0
    case Warn => 1
    case Error => 2
  }

  /** A call at `level` goes through a logger whose threshold is `threshold`: everything passes an Info
      threshold, Error passes every threshold, and otherwise only the threshold's own level passes. */
  function ShouldLog(threshold: LogLevel, level: LogLevel): (b: bool)
    ensures b <==> threshold == Info || level == Error || level == threshold
  {
    Rank(level) >= Rank(threshold)
  }

  /** The threshold test is a total order: reflexive, transitive, total and antisymmetric. */
  lemma ShouldLogTotalOrder(a: LogLevel, b: LogLevel, c: LogLevel)
    ensures ShouldLog(a, a)
    ensures ShouldLog(a, b) && ShouldLog(b, c) ==> ShouldLog(a, c)
    ensures ShouldLog(a, b) || ShouldLog(b, a)
    ensures ShouldLog(a, b) && ShouldLog(b, a) ==> a == b
  {
  }

  /** The label shown between brackets: a non-empty run of capital letters. */
  function Label(l: LogLevel): (r: string)
    ensures |r| >= 4 && forall i :: 0 <= i < |r| ==> 'A' <= r[i] <= 'Z'
  {
    match l
    case Info => "INFO"
    case Warn => "WARN"
    case Error => "ERROR"
  }

  /** The name of the enumeration member, as the reverse mapping of the enumeration gives it. */
  function MemberName(l: LogLevel): string {
    match l
    case Info => "Info"
    case Warn => "Warn"
    case Error => "Error"
  }

  /** A character in lower case; characters other than capital letters are kept. */
  function LowerChar(c: char): char {
    if 'A' <= c <= 'Z' then (c as int + 32) as char else c
  }

  /** A string in lower case. */
  function ToLower(s: string): (r: string)
    ensures |r| == |s| && forall i :: 0 <= i < |s| ==> r[i] == LowerChar(s[i])
  {
    seq(|s|, i requires 0 <= i < |s| => LowerChar(s[i]))
  }

  /** The key under which a level's custom colour is looked up: the member name in lower case. */
  function Key(l: LogLevel): (r: string)
    ensures l == Info ==> r == "info"
    ensures l == Warn ==> r == "warn"
    ensures l == Error ==> r == "error"
  {
    ToLower(MemberName(l))
  }

  /** The console function a level prints with. */
  datatype ConsoleMethod = ConsoleLog | ConsoleWarn | ConsoleError

  /** Info prints with `console.log`, Warn with `console.warn` and Error with `console.error`. */
  function Method(l: LogLevel): (r: ConsoleMethod)
    ensures r.ConsoleLog? <==> l == Info
    ensures r.ConsoleWarn? <==> l == Warn
    ensures r.ConsoleError? <==> l == Error
  {
    match l
    case Info => ConsoleLog
    case Warn => ConsoleWarn
    case Error => ConsoleError
  }

  /** Labels, keys and console methods each identify their level; no label contains the closing
      bracket, and the key is the label in lower case. */
  lemma LabelFacts(a: LogLevel, b: LogLevel)
    ensures Label(a) == Label(b) <==> a == b
    ensures Key(a) == Key(b) <==> a == b
    ensures Method(a) == Method(b) <==> a == b
    ensures ']' !in Label(a)
    ensures ToLower(Label(a)) == Key(a)
  {
    assert Label(a)[0] != ']';
    var lower := ToLower(Label(a));
    match a
    case Info => assert lower == "info";
    case Warn => assert lower == "warn";
    case Error => assert lower == "error";
  }
}
