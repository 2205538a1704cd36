/**
 * The pattern compiler and renderer of log/logs/format.hpp.
 *
 * `parsePattern` walks the pattern once and builds `fmt_order`, a list of
 * (key, val) pairs: key "" is literal text, any other key is the one
 * character after a `%`, and val is then its `{...}` sub-pattern. The
 * pairs are turned into format items by `createItem`, and `format`
 * concatenates what each item prints for a message.
 */
module Format {
  import opened Wrappers
  import Text

  /** Severity of a record; its printed name comes from the environment. */
  datatype Level = Debug | Info | Warn | Error | Fatal

  /**
   * One log event (log/logs/message.hpp). The creation time is an opaque
   * timestamp and the thread id is given as the text it prints as.
   */
  datatype LogMsg = LogMsg(
    ctime: int,
    level: Level,
    line: nat,
    tid: string,
    file: string,
    logger: string,
    payload: string)

  /**
   * The renderings the core takes from outside: the name of a level, and the
   * text `strftime` produces for a format and a timestamp in local time.
   */
  datatype Env = Env(levelName: Level -> string, timeText: (string, int) -> string)

  /** The format item classes, one constructor per subclass. */
  datatype Item =
    | Literal(text: string)
    | Time(timeFormat: string)
    | Tab
    | Thread
    | LevelName
    | LoggerName
    | FileName
    | LineNumber
    | Payload
    | Newline

  /** One element of `fmt_order`: key "" is literal text. */
  datatype Entry = Entry(key: string, val: string)

  datatype ConfigError =
    | DanglingPercent                // `%` is the last character
    | UnclosedSubPattern             // `{` without a matching `}`
    | UnknownDirective(key: string)  // `createItem` aborts

  const DEFAULT_PATTERN: string := "[%d{%H:%M:%S}][%t][%c][%f:%l][%p]%T%m%n"

  /** An immutable compiled formatter: the pattern and its rendering plan. */
  datatype Formatter = Formatter(pattern: string, items: seq<Item>)

  // ---------------------------------------------------------------------
  // Parsing

  function Prepend(prefix: seq<Entry>, r: Result<seq<Entry>, ConfigError>): Result<seq<Entry>, ConfigError>
  {
    match r
    case Ok(plan) => Ok(prefix + plan)
    case Err(e) => Err(e)
  }

  lemma PrependNil(r: Result<seq<Entry>, ConfigError>)
    ensures Prepend([], r) == r
  {
    if r.Ok? {
      assert [] + r.value == r.value;
    }
  }

  /** The pending literal, emitted only when it is not empty. */
  function Flush(pending: string): seq<Entry>
  {
    if pending == [] then [] else [Entry([], pending)]
  }

  /**
   * Splits the text after a `{` at its first `}`: the sub-pattern and what
   * follows the `}`; None when there is no `}`.
   */
  function BraceSplit(s: string): (r: Option<(string, string)>)
    ensures r.Some? ==> |r.value.1| < |s|
  {
    if s == [] then None
    else if s[0] == '}' then Some(([], s[1..]))
    else match BraceSplit(s[1..])
      case None => None
      case Some((sub, tail)) => Some(([s[0]] + sub, tail))
  }

  /**
   * What the parsing loop appends to `fmt_order` from the unread text `rest`
   * on, with `pending` the literal collected so far. Literal text still
   * pending when the pattern ends is not emitted.
   */
  function Scan(rest: string, pending: string): Result<seq<Entry>, ConfigError>
    decreases |rest|
  {
    if rest == [] then Ok([])
    else if rest[0] != '%' then Scan(rest[1..], pending + [rest[0]])
    else if |rest| > 1 && rest[1] == '%' then Scan(rest[2..], pending + "%")
    else if |rest| == 1 then Err(DanglingPercent)
    else
      var key := [rest[1]];
      var after := rest[2..];
      if |after| > 0 && after[0] == '{' then
        match BraceSplit(after[1..])
        case None => Err(UnclosedSubPattern)
        case Some((sub, tail)) => Prepend(Flush(pending) + [Entry(key, sub)], Scan(tail, ""))
      else
        Prepend(Flush(pending) + [Entry(key, [])], Scan(after, ""))
  }

  /** No `}` in `p[from..to]`. */
  predicate NoClose(p: string, from: nat, to: nat)
    requires from <= to <= |p|
  {
    forall k :: from <= k < to ==> p[k] != '}'
  }

  /** BraceSplit finds the first `}`: the part before it holds none, and None means there is none. */
  lemma {:induction false} BraceSplitShape(s: string)
    ensures BraceSplit(s).None? ==> NoClose(s, 0, |s|)
    ensures BraceSplit(s).Some? ==>
      var (sub, tail) := BraceSplit(s).value;
      s == sub + "}" + tail && NoClose(sub, 0, |sub|)
  {
    if s != [] && s[0] != '}' {
      BraceSplitShape(s[1..]);
      assert s == [s[0]] + s[1..];
    }
  }

  /** The first `}` at or after the start of `s` is at index `k` (or there is none, k == |s|). */
  lemma {:induction false} BraceSplitAt(s: string, k: nat)
    requires k <= |s| && NoClose(s, 0, k)
    requires k < |s| ==> s[k] == '}'
    ensures k == |s| ==> BraceSplit(s) == None
    ensures k < |s| ==> BraceSplit(s) == Some((s[..k], s[k + 1..]))
  {
    if k > 0 {
      BraceSplitAt(s[1..], k - 1);
      if k < |s| {
        assert [s[0]] + s[1..][..k - 1] == s[..k];
        assert s[1..][k..] == s[k + 1..];
      }
    }
  }

  lemma ConcatAssoc<T>(a: seq<T>, b: seq<T>, c: seq<T>)
    ensures a + b + c == a + (b + c)
  {
  }

  lemma PrependAssoc(a: seq<Entry>, b: seq<Entry>, r: Result<seq<Entry>, ConfigError>)
    ensures Prepend(a, Prepend(b, r)) == Prepend(a + b, r)
  {
    if r.Ok? {
      assert a + (b + r.value) == a + b + r.value;
    }
  }

  // One lemma per branch of the loop body, stated at cursor `pos`.

  lemma ScanLiteralAt(p: string, pos: nat, val: string)
    requires pos < |p| && p[pos] != '%'
    ensures Scan(p[pos..], val) == Scan(p[pos + 1..], val + [p[pos]])
  {
    assert p[pos..][1..] == p[pos + 1..];
  }

  lemma ScanEscapeAt(p: string, pos: nat, val: string)
    requires pos + 1 < |p| && p[pos] == '%' && p[pos + 1] == '%'
    ensures Scan(p[pos..], val) == Scan(p[pos + 2..], val + "%")
  {
    assert p[pos..][2..] == p[pos + 2..];
  }

  lemma ScanDanglingAt(p: string, pos: nat, val: string)
    requires pos + 1 == |p| && p[pos] == '%'
    ensures Scan(p[pos..], val) == Err(DanglingPercent)
  {
  }

  lemma ScanBareAt(p: string, pos: nat, val: string)
    requires pos + 1 < |p| && p[pos] == '%' && p[pos + 1] != '%'
    requires !(pos + 2 < |p| && p[pos + 2] == '{')
    ensures Scan(p[pos..], val) == Prepend(Flush(val) + [Entry([p[pos + 1]], [])], Scan(p[pos + 2..], ""))
  {
    assert p[pos..][2..] == p[pos + 2..];
  }

  lemma ScanBraceAt(p: string, pos: nat, val: string, close: nat)
    requires pos + 2 < |p| && p[pos] == '%' && p[pos + 1] != '%' && p[pos + 2] == '{'
    requires pos + 3 <= close <= |p| && NoClose(p, pos + 3, close)
    requires close < |p| ==> p[close] == '}'
    ensures close == |p| ==> Scan(p[pos..], val) == Err(UnclosedSubPattern)
    ensures close < |p| ==>
      Scan(p[pos..], val) == Prepend(Flush(val) + [Entry([p[pos + 1]], p[pos + 3..close])], Scan(p[close + 1..], ""))
  {
    var s := p[pos + 3..];
    assert p[pos..][2..][1..] == s;
    assert s[..close - (pos + 3)] == p[pos + 3..close];
    BraceSplitAt(s, close - (pos + 3));
    if close < |p| {
      assert s[close - (pos + 3) + 1..] == p[close + 1..];
    }
  }

  /**
   * The inner loop of `parsePattern`: collects the characters from `from`
   * up to the first `}` (or the end of the pattern) and stops there.
   */
  method ReadSubPattern(pattern: string, from: nat) returns (sub: string, pos: nat)
    requires from <= |pattern|
    ensures from <= pos <= |pattern| && sub == pattern[from..pos] && NoClose(pattern, from, pos)
    ensures pos < |pattern| ==> pattern[pos] == '}'
  {
    sub, pos := [], from;
    while pos < |pattern| && pattern[pos] != '}'
      invariant from <= pos <= |pattern|
      invariant sub == pattern[from..pos]
      invariant forall k :: from <= k < pos ==> pattern[k] != '}'
    {
      sub := sub + [pattern[pos]];
      pos := pos + 1;
    }
  }

  /**
   * The loop invariant of `parsePattern`: `fmtOrder` followed by what the
   * rest of the pattern yields from cursor `pos` with pending literal `val`
   * is what the whole pattern yields.
   */
  ghost predicate Parsed(pattern: string, fmtOrder: seq<Entry>, pos: nat, val: string)
  {
    pos <= |pattern| && Scan(pattern, "") == Prepend(fmtOrder, Scan(pattern[pos..], val))
  }

  lemma ParsedStart(p: string)
    ensures Parsed(p, [], 0, [])
  {
    assert p[0..] == p;
    PrependNil(Scan(p, ""));
  }

  lemma ParsedLiteral(p: string, order: seq<Entry>, pos: nat, val: string)
    requires Parsed(p, order, pos, val) && pos < |p| && p[pos] != '%'
    ensures Parsed(p, order, pos + 1, val + [p[pos]])
  {
    ScanLiteralAt(p, pos, val);
  }

  lemma ParsedEscape(p: string, order: seq<Entry>, pos: nat, val: string)
    requires Parsed(p, order, pos, val) && pos + 1 < |p| && p[pos] == '%' && p[pos + 1] == '%'
    ensures Parsed(p, order, pos + 2, val + "%")
  {
    ScanEscapeAt(p, pos, val);
  }

  lemma ParsedDirective(p: string, order: seq<Entry>, pos: nat, val: string, e: Entry, next: nat)
    requires Parsed(p, order, pos, val) && next <= |p|
    requires Scan(p[pos..], val) == Prepend(Flush(val) + [e], Scan(p[next..], ""))
    ensures Parsed(p, order + Flush(val) + [e], next, [])
  {
    PrependAssoc(order, Flush(val) + [e], Scan(p[next..], ""));
    assert order + (Flush(val) + [e]) == order + Flush(val) + [e];
  }

  lemma ParsedFails(p: string, order: seq<Entry>, pos: nat, val: string, err: ConfigError)
    requires Parsed(p, order, pos, val) && Scan(p[pos..], val) == Err(err)
    ensures Scan(p, "") == Err(err)
  {
  }

  lemma ParsedEnd(p: string, order: seq<Entry>, val: string)
    requires Parsed(p, order, |p|, val)
    ensures Scan(p, "") == Ok(order)
  {
    assert p[|p|..] == [];
    assert order + [] == order;
  }

  /**
   * The part of `parsePattern`'s loop body that reads a directive at `pos`
   * (a `%` not followed by another `%`): its key and, when a `{` follows,
   * its sub-pattern up to the `}`. `pending` is the literal collected
   * before it.
   */
  method ReadDirective(pattern: string, pos: nat, ghost pending: string) returns (e: Entry, next: nat, err: Option<ConfigError>)
    requires pos < |pattern| && pattern[pos] == '%' && !(pos + 1 < |pattern| && pattern[pos + 1] == '%')
    ensures err.Some? ==> Scan(pattern[pos..], pending) == Err(err.value)
    ensures err.None? ==> pos < next <= |pattern|
    ensures err.None? ==> Scan(pattern[pos..], pending) == Prepend(Flush(pending) + [e], Scan(pattern[next..], ""))
  {
    e, next, err := Entry([], []), pos, None;
    if pos + 1 == |pattern| {
      ScanDanglingAt(pattern, pos, pending);
      err := Some(DanglingPercent);
      return;
    }
    var key := [pattern[pos + 1]];
    next := pos + 2;
    if next < |pattern| && pattern[next] == '{' {
      var sub, close := ReadSubPattern(pattern, next + 1);
      ScanBraceAt(pattern, pos, pending, close);
      e := Entry(key, sub);
      if close == |pattern| {
        err := Some(UnclosedSubPattern);
        return;
      }
      next := close + 1;
    } else {
      ScanBareAt(pattern, pos, pending);
      e := Entry(key, []);
    }
  }

  /** `parsePattern`'s loop, returning `fmt_order` or the reason it failed. */
  method ParsePattern(pattern: string) returns (r: Result<seq<Entry>, ConfigError>)
    ensures r == Scan(pattern, "")
  {
    var fmtOrder: seq<Entry> := [];
    var pos := 0;
    var val: string := [];
    ParsedStart(pattern);
    while pos < |pattern|
      invariant Parsed(pattern, fmtOrder, pos, val)
      decreases |pattern| - pos
    {
      if pattern[pos] != '%' {
        ParsedLiteral(pattern, fmtOrder, pos, val);
        val := val + [pattern[pos]];
        pos := pos + 1;
        continue;
      }
      if pos + 1 < |pattern| && pattern[pos + 1] == '%' {
        ParsedEscape(pattern, fmtOrder, pos, val);
        val := val + "%";
        pos := pos + 2;
        continue;
      }
      ghost var before, pending := fmtOrder, val;
      if val != [] {
        fmtOrder := fmtOrder + [Entry([], val)];
        val := [];
      }
      var e, next, err := ReadDirective(pattern, pos, pending);
      if err.Some? {
        ParsedFails(pattern, before, pos, pending, err.value);
        return Err(err.value);
      }
      ParsedDirective(pattern, before, pos, pending, e, next);
      assert fmtOrder + [e] == before + Flush(pending) + [e];
      fmtOrder := fmtOrder + [e];
      pos, val := next, [];
    }
    ParsedEnd(pattern, fmtOrder, val);
    r := Ok(fmtOrder);
  }

  // ---------------------------------------------------------------------
  // Shape of the plan

  /** A literal is never empty; a directive key is one character other than `%`, its value has no `}`. */
  predicate WellFormedEntry(e: Entry)
  {
    if e.key == [] then e.val != [] else |e.key| == 1 && e.key[0] != '%' && NoClose(e.val, 0, |e.val|)
  }

  /** Every entry is well formed and every literal is directly followed by a directive. */
  predicate WellFormedPlan(plan: seq<Entry>)
  {
    (forall i :: 0 <= i < |plan| ==> WellFormedEntry(plan[i]))
    && (forall i :: 0 <= i < |plan| && plan[i].key == [] ==> i + 1 < |plan| && plan[i + 1].key != [])
  }

  lemma FlushDirective(pending: string, e: Entry, plan: seq<Entry>)
    requires WellFormedEntry(e) && e.key != [] && WellFormedPlan(plan)
    ensures WellFormedPlan(Flush(pending) + [e] + plan)
  {
    var r := Flush(pending) + [e] + plan;
    var n := |Flush(pending)|;
    forall i | 0 <= i < |r|
      ensures WellFormedEntry(r[i])
      ensures r[i].key == [] ==> i + 1 < |r| && r[i + 1].key != []
    {
      if i > n {
        assert r[i] == plan[i - n - 1];
        if i + 1 < |r| {
          assert r[i + 1] == plan[i - n];
        }
      }
    }
  }

  /**
   * What parsing produces is well formed: no empty literal is emitted, and a
   * pending literal is emitted only right before the directive that ends it.
   */
  lemma {:induction false} ScanWellFormed(rest: string, pending: string)
    ensures Scan(rest, pending).Ok? ==> WellFormedPlan(Scan(rest, pending).value)
    decreases |rest|
  {
    if rest == [] {
    } else if rest[0] != '%' {
      ScanWellFormed(rest[1..], pending + [rest[0]]);
    } else if |rest| > 1 && rest[1] == '%' {
      ScanWellFormed(rest[2..], pending + "%");
    } else if |rest| > 1 {
      var key := [rest[1]];
      var after := rest[2..];
      if |after| > 0 && after[0] == '{' {
        match BraceSplit(after[1..]) {
          case None =>
          case Some((sub, tail)) =>
            BraceSplitShape(after[1..]);
            ScanWellFormed(tail, "");
            if Scan(tail, "").Ok? {
              FlushDirective(pending, Entry(key, sub), Scan(tail, "").value);
            }
        }
      } else {
        ScanWellFormed(after, "");
        if Scan(after, "").Ok? {
          FlushDirective(pending, Entry(key, []), Scan(after, "").value);
        }
      }
    }
  }

  /** One character of literal text, as written in a pattern. */
  function EscapeChar(c: char): string
  {
    if c == '%' then "%%" else [c]
  }

  /** Literal text as it must be written in a pattern: every `%` doubled. */
  function Escape(text: string): string
  {
    if text == [] then [] else EscapeChar(text[0]) + Escape(text[1..])
  }

  /** A plan written back as a pattern; every directive is given braces. */
  function Unparse(plan: seq<Entry>): string
  {
    if plan == [] then []
    else
      (if plan[0].key == [] then Escape(plan[0].val) else "%" + plan[0].key + "{" + plan[0].val + "}")
      + Unparse(plan[1..])
  }

  lemma {:induction false} EscapePlain(text: string)
    requires '%' !in text
    ensures Escape(text) == text
  {
    if text != [] {
      EscapePlain(text[1..]);
    }
  }

  lemma EscapeCons(text: string, rest: string)
    requires text != []
    ensures Escape(text) + rest == EscapeChar(text[0]) + (Escape(text[1..]) + rest)
  {
  }

  lemma ScanEscapeChar(c: char, r: string, pending: string)
    ensures Scan(EscapeChar(c) + r, pending) == Scan(r, pending + [c])
  {
    var s := EscapeChar(c) + r;
    assert s[0..] == s;
    if c == '%' {
      assert s[2..] == r;
      ScanEscapeAt(s, 0, pending);
    } else {
      assert s[1..] == r;
      ScanLiteralAt(s, 0, pending);
    }
  }

  lemma AppendHead(pending: string, text: string)
    requires text != []
    ensures pending + [text[0]] + text[1..] == pending + text
  {
    assert [text[0]] + text[1..] == text;
  }

  /** Escaped text is read back into the pending literal, unchanged. */
  lemma {:induction false} ScanEscape(text: string, rest: string, pending: string)
    ensures Scan(Escape(text) + rest, pending) == Scan(rest, pending + text)
    decreases |text|
  {
    if text == [] {
      assert Escape(text) + rest == rest;
      assert pending + text == pending;
    } else {
      var c := text[0];
      EscapeCons(text, rest);
      ScanEscapeChar(c, Escape(text[1..]) + rest, pending);
      ScanEscape(text[1..], rest, pending + [c]);
      AppendHead(pending, text);
    }
  }

  /** A directive without braces emits the pending literal, then an entry with an empty value. */
  lemma ScanBareDirective(k: char, rest: string, pending: string)
    requires k != '%' && (rest == [] || rest[0] != '{')
    ensures Scan(['%', k] + rest, pending) == Prepend(Flush(pending) + [Entry([k], [])], Scan(rest, ""))
  {
    assert (['%', k] + rest)[2..] == rest;
  }

  /** A directive with braces emits the pending literal, then an entry holding the sub-pattern. */
  lemma ScanBracedDirective(k: char, sub: string, rest: string, pending: string)
    requires k != '%' && NoClose(sub, 0, |sub|)
    ensures Scan("%" + [k] + "{" + sub + "}" + rest, pending)
         == Prepend(Flush(pending) + [Entry([k], sub)], Scan(rest, ""))
  {
    var head := "%" + [k] + "{" + sub;
    var s := head + ("}" + rest);
    assert s == "%" + [k] + "{" + sub + "}" + rest;
    var close := |sub| + 3;
    assert NoClose(s, 3, close) && s[close] == '}' && s[0..] == s by {
      assert forall j :: 0 <= j < |sub| ==> s[j + 3] == sub[j];
    }
    ScanBraceAt(s, 0, pending, close);
    assert s[3..close] == sub by {
      assert s[..close] == head;
      assert head[3..] == sub;
    }
    assert s[close + 1..] == rest by {
      assert s[close..] == "}" + rest;
    }
  }

  /**
   * Parsing the printed form of a well-formed plan, followed by any text,
   * yields the plan followed by what that text yields.
   */
  lemma WellFormedTail(plan: seq<Entry>)
    requires WellFormedPlan(plan) && plan != []
    ensures WellFormedPlan(plan[1..])
  {
    var tail := plan[1..];
    forall i | 0 <= i < |tail| ensures WellFormedEntry(tail[i]) {
      assert tail[i] == plan[i + 1];
    }
    forall i | 0 <= i < |tail| && tail[i].key == []
      ensures i + 1 < |tail| && tail[i + 1].key != []
    {
      assert tail[i] == plan[i + 1];
    }
  }

  /** The printed form of a literal entry, read before `rest`, becomes the pending literal. */
  lemma ScanUnparseLiteral(plan: seq<Entry>, rest: string)
    requires plan != [] && plan[0].key == []
    ensures Scan(Unparse(plan) + rest, []) == Scan(Unparse(plan[1..]) + rest, plan[0].val)
  {
    var after := Unparse(plan[1..]) + rest;
    assert Unparse(plan) + rest == Escape(plan[0].val) + after;
    ScanEscape(plan[0].val, after, []);
    assert [] + plan[0].val == plan[0].val;
  }

  /** The printed form of a directive entry, read before `rest`, emits the pending literal and the entry. */
  lemma ScanUnparseDirective(plan: seq<Entry>, rest: string, pending: string)
    requires plan != [] && WellFormedEntry(plan[0]) && plan[0].key != []
    ensures Scan(Unparse(plan) + rest, pending)
         == Prepend(Flush(pending) + [plan[0]], Scan(Unparse(plan[1..]) + rest, ""))
  {
    var e := plan[0];
    var k := e.key[0];
    assert e.key == [k];
    var after := Unparse(plan[1..]) + rest;
    assert Unparse(plan) + rest == "%" + [k] + "{" + e.val + "}" + after;
    ScanBracedDirective(k, e.val, after, pending);
  }

  /** `ScanUnparse` for a plan that starts with a literal. */
  lemma {:induction false} ScanUnparseLiteralStep(plan: seq<Entry>, rest: string)
    requires WellFormedPlan(plan) && plan != [] && plan[0].key == []
    ensures Scan(Unparse(plan) + rest, []) == Prepend(Flush([]) + plan, Scan(rest, ""))
    decreases |plan|, 0
  {
    var e, tail := plan[0], plan[1..];
    WellFormedTail(plan);
    assert WellFormedEntry(e) && 1 < |plan| && plan[1].key != [];
    ScanUnparseLiteral(plan, rest);
    ScanUnparse(tail, rest, e.val);
    assert Flush([]) + plan == Flush(e.val) + tail by {
      assert Flush(e.val) == [e] && Flush([]) == [];
      assert [e] + tail == plan;
    }
  }

  /** `ScanUnparse` for a plan that starts with a directive. */
  lemma {:induction false} ScanUnparseDirectiveStep(plan: seq<Entry>, rest: string, pending: string)
    requires WellFormedPlan(plan) && plan != [] && plan[0].key != []
    ensures Scan(Unparse(plan) + rest, pending) == Prepend(Flush(pending) + plan, Scan(rest, ""))
    decreases |plan|, 0
  {
    var e, tail := plan[0], plan[1..];
    var head, r := Flush(pending) + [e], Scan(rest, "");
    assert Scan(Unparse(tail) + rest, "") == Prepend(tail, r) by {
      WellFormedTail(plan);
      ScanUnparse(tail, rest, "");
      assert Flush("") + tail == tail;
    }
    assert Scan(Unparse(plan) + rest, pending) == Prepend(head, Scan(Unparse(tail) + rest, "")) by {
      assert WellFormedEntry(e);
      ScanUnparseDirective(plan, rest, pending);
    }
    PrependAssoc(head, tail, r);
    assert head + tail == Flush(pending) + plan by {
      ConcatAssoc(Flush(pending), [e], tail);
      assert [e] + tail == plan;
    }
  }

  /**
   * Parsing the printed form of a well-formed plan, followed by any text,
   * yields the plan followed by what that text yields.
   */
  lemma {:induction false} ScanUnparse(plan: seq<Entry>, rest: string, pending: string)
    requires WellFormedPlan(plan)
    requires pending != [] ==> |plan| > 0 && plan[0].key != []
    ensures Scan(Unparse(plan) + rest, pending) == Prepend(Flush(pending) + plan, Scan(rest, ""))
    decreases |plan|, 1
  {
    if plan == [] {
      assert pending == [] && Flush(pending) + plan == [];
      assert Unparse(plan) + rest == rest;
      PrependNil(Scan(rest, ""));
    } else if plan[0].key == [] {
      ScanUnparseLiteralStep(plan, rest);
    } else {
      ScanUnparseDirectiveStep(plan, rest, pending);
    }
  }

  /** Every well-formed plan is produced by parsing its printed form. */
  lemma UnparseRoundTrip(plan: seq<Entry>)
    requires WellFormedPlan(plan)
    ensures Scan(Unparse(plan), "") == Ok(plan)
  {
    ScanUnparse(plan, [], []);
    assert Unparse(plan) + [] == Unparse(plan);
    assert Flush([]) + plan + [] == plan;
  }

  /** Literal text after the last directive, `%` included, produces no entry. */
  lemma TrailingLiteralDropped(plan: seq<Entry>, text: string)
    requires WellFormedPlan(plan)
    ensures Scan(Unparse(plan) + Escape(text), "") == Ok(plan)
  {
    ScanUnparse(plan, Escape(text), []);
    ScanEscape(text, [], []);
    assert Escape(text) + [] == Escape(text);
    assert Flush([]) + plan + [] == plan;
  }

  /** A lone `%` as the last character fails, after any printed plan and literal text. */
  lemma TrailingPercentFails(plan: seq<Entry>, text: string)
    requires WellFormedPlan(plan)
    ensures Scan(Unparse(plan) + Escape(text) + "%", "") == Err(DanglingPercent)
  {
    ConcatAssoc(Unparse(plan), Escape(text), "%");
    ScanUnparse(plan, Escape(text) + "%", []);
    ScanEscape(text, "%", []);
  }

  /** A directive whose `{` is never closed. */
  lemma ScanUnclosed(k: char, sub: string, pending: string)
    requires k != '%' && NoClose(sub, 0, |sub|)
    ensures Scan(['%', k, '{'] + sub, pending) == Err(UnclosedSubPattern)
  {
    var s := ['%', k, '{'] + sub;
    assert s[0..] == s;
    assert NoClose(s, 3, |s|) by {
      assert forall j :: 0 <= j < |sub| ==> s[j + 3] == sub[j];
    }
    ScanBraceAt(s, 0, pending, |s|);
  }

  /** A `{` that is never closed fails, after any printed plan and literal text. */
  lemma UnclosedBraceFails(plan: seq<Entry>, text: string, k: char, sub: string)
    requires WellFormedPlan(plan) && k != '%' && NoClose(sub, 0, |sub|)
    ensures Scan(Unparse(plan) + Escape(text) + (['%', k, '{'] + sub), "") == Err(UnclosedSubPattern)
  {
    var rest := ['%', k, '{'] + sub;
    ConcatAssoc(Unparse(plan), Escape(text), rest);
    ScanUnparse(plan, Escape(text) + rest, []);
    ScanEscape(text, rest, []);
    assert [] + text == text;
    ScanUnclosed(k, sub, text);
  }

  // ---------------------------------------------------------------------
  // Items

  /** `createItem`: the item for one `fmt_order` entry; an unknown key aborts. */
  function CreateItem(key: string, val: string): Result<Item, ConfigError>
  {
    if key == "d" then Ok(Time(val))
    else if key == "T" then Ok(Tab)
    else if key == "t" then Ok(Thread)
    else if key == "p" then Ok(LevelName)
    else if key == "c" then Ok(LoggerName)
    else if key == "f" then Ok(FileName)
    else if key == "l" then Ok(LineNumber)
    else if key == "m" then Ok(Payload)
    else if key == "n" then Ok(Newline)
    else if key == "" then Ok(Literal(val))
    else Err(UnknownDirective(key))
  }

  /**
   * Only the nine directive letters and the literal key are accepted; only
   * `d` and literals keep their value, so a `{...}` after any other letter
   * is dropped.
   */
  lemma CreateItemKeys(key: string, val: string)
    ensures CreateItem(key, val).Err? <==> key !in {"d", "T", "t", "p", "c", "f", "l", "m", "n", ""}
    ensures CreateItem(key, val).Err? ==> CreateItem(key, val).error == UnknownDirective(key)
    ensures key == "d" ==> CreateItem(key, val) == Ok(Time(val))
    ensures key == "" ==> CreateItem(key, val) == Ok(Literal(val))
    ensures key != "d" && key != "" ==> CreateItem(key, val) == CreateItem(key, [])
  {
  }

  /** All items of a plan, in order; the first unknown key aborts. */
  function CreateItems(plan: seq<Entry>): Result<seq<Item>, ConfigError>
  {
    if plan == [] then Ok([])
    else match CreateItem(plan[0].key, plan[0].val)
      case Err(e) => Err(e)
      case Ok(item) =>
        match CreateItems(plan[1..])
        case Err(e) => Err(e)
        case Ok(items) => Ok([item] + items)
  }

  /** Every entry of the plan gives an item. */
  predicate AllKnown(plan: seq<Entry>)
  {
    forall i :: 0 <= i < |plan| ==> CreateItem(plan[i].key, plan[i].val).Ok?
  }

  /**
   * Creating the items succeeds exactly when every key is known, and then
   * gives one item per entry, in order.
   */
  lemma {:induction false} CreateItemsOk(plan: seq<Entry>)
    ensures CreateItems(plan).Ok? <==> AllKnown(plan)
    ensures CreateItems(plan).Ok? ==>
      |CreateItems(plan).value| == |plan|
      && forall i :: 0 <= i < |plan| ==> CreateItems(plan).value[i] == CreateItem(plan[i].key, plan[i].val).value
  {
    if plan != [] {
      var tail := plan[1..];
      CreateItemsOk(tail);
      assert forall i :: 0 < i < |plan| ==> plan[i] == tail[i - 1];
    }
  }

  lemma AllKnownCons(e: Entry, rest: seq<Entry>)
    requires CreateItem(e.key, e.val).Ok? && AllKnown(rest)
    ensures AllKnown([e] + rest)
  {
    assert forall i :: 0 < i < |[e] + rest| ==> ([e] + rest)[i] == rest[i - 1];
  }

  /** One step of `CreateItems`: where a failure comes from. */
  lemma CreateItemsErrStep(plan: seq<Entry>)
    requires plan != [] && CreateItems(plan).Err?
    ensures CreateItem(plan[0].key, plan[0].val).Err? ==>
      CreateItem(plan[0].key, plan[0].val).error == CreateItems(plan).error
    ensures CreateItem(plan[0].key, plan[0].val).Ok? ==>
      CreateItems(plan[1..]).Err? && CreateItems(plan[1..]).error == CreateItems(plan).error
  {
  }

  /** The position of the first unknown key of a plan whose items fail. */
  lemma FirstErrorIn(plan: seq<Entry>) returns (i: nat)
    requires CreateItems(plan).Err?
    ensures i < |plan| && AllKnown(plan[..i])
    ensures CreateItem(plan[i].key, plan[i].val) == Err(CreateItems(plan).error)
    decreases |plan|, 1
  {
    CreateItemsFirstError(plan);
    i :| 0 <= i < |plan| && AllKnown(plan[..i])
      && CreateItem(plan[i].key, plan[i].val) == Err(CreateItems(plan).error);
  }

  /** A failure is the error of the first entry whose key is unknown. */
  lemma {:induction false} CreateItemsFirstError(plan: seq<Entry>)
    ensures CreateItems(plan).Err? ==>
      exists i :: 0 <= i < |plan| && AllKnown(plan[..i])
        && CreateItem(plan[i].key, plan[i].val) == Err(CreateItems(plan).error)
    decreases |plan|, 0
  {
    if plan != [] && CreateItems(plan).Err? {
      var tail := plan[1..];
      var err := CreateItems(plan).error;
      CreateItemsErrStep(plan);
      if CreateItem(plan[0].key, plan[0].val).Err? {
        assert AllKnown(plan[..0]);
      } else {
        var j := FirstErrorIn(tail);
        assert 0 <= j + 1 < |plan| && AllKnown(plan[..j + 1])
          && CreateItem(plan[j + 1].key, plan[j + 1].val) == Err(err) by {
          assert plan[..j + 1] == [plan[0]] + tail[..j] by {
            assert plan == [plan[0]] + tail;
          }
          AllKnownCons(plan[0], tail[..j]);
          assert plan[j + 1] == tail[j];
        }
      }
    }
  }

  function PrependItems(prefix: seq<Item>, r: Result<seq<Item>, ConfigError>): Result<seq<Item>, ConfigError>
  {
    match r
    case Ok(items) => Ok(prefix + items)
    case Err(e) => Err(e)
  }

  lemma PrependItemsNil(r: Result<seq<Item>, ConfigError>)
    ensures PrependItems([], r) == r
  {
    if r.Ok? {
      assert [] + r.value == r.value;
    }
  }

  /** Building a formatter: parse, then create every item. */
  function Compile(pattern: string): Result<Formatter, ConfigError>
  {
    match Scan(pattern, "")
    case Err(e) => Err(e)
    case Ok(plan) =>
      match CreateItems(plan)
      case Err(e) => Err(e)
      case Ok(items) => Ok(Formatter(pattern, items))
  }

  /**
   * A pattern compiles exactly when it parses and names only known
   * directives; the formatter then holds one item per `fmt_order` entry.
   */
  lemma CompileSpec(pattern: string)
    ensures Compile(pattern).Ok? <==> Scan(pattern, "").Ok? && AllKnown(Scan(pattern, "").value)
    ensures Compile(pattern).Ok? ==>
      var plan, f := Scan(pattern, "").value, Compile(pattern).value;
      f.pattern == pattern && |f.items| == |plan|
      && forall i :: 0 <= i < |plan| ==> f.items[i] == CreateItem(plan[i].key, plan[i].val).value
  {
    if Scan(pattern, "").Ok? {
      CreateItemsOk(Scan(pattern, "").value);
    }
  }

  /**
   * The `Formatter` constructor: `parsePattern` followed by its loop over
   * `fmt_order`. A failure is returned instead of half-building the object.
   */
  method NewFormatter(pattern: string) returns (r: Result<Formatter, ConfigError>)
    ensures r == Compile(pattern)
  {
    var parsed := ParsePattern(pattern);
    if parsed.Err? {
      return Err(parsed.error);
    }
    var fmtOrder := parsed.value;
    var items: seq<Item> := [];
    var i := 0;
    assert fmtOrder[i..] == fmtOrder;
    PrependItemsNil(CreateItems(fmtOrder));
    while i < |fmtOrder|
      invariant i <= |fmtOrder|
      invariant CreateItems(fmtOrder) == PrependItems(items, CreateItems(fmtOrder[i..]))
    {
      assert fmtOrder[i..][1..] == fmtOrder[i + 1..];
      var item := CreateItem(fmtOrder[i].key, fmtOrder[i].val);
      if item.Err? {
        return Err(item.error);
      }
      match CreateItems(fmtOrder[i + 1..]) {
        case Ok(rest) =>
          assert items + ([item.value] + rest) == items + [item.value] + rest;
        case Err(_) =>
      }
      items := items + [item.value];
      i := i + 1;
    }
    assert fmtOrder[i..] == [];
    assert items + [] == items;
    r := Ok(Formatter(pattern, items));
  }

  // ---------------------------------------------------------------------
  // Rendering

  /**
   * What each item's `format` writes for a message; the line number is
   * written in decimal and reads back as the line.
   */
  function FormatItem(item: Item, msg: LogMsg, env: Env): (r: string)
    ensures item.LineNumber? ==> |r| > 0 && Text.AllDigits(r) && Text.DecimalValue(r) == msg.line
  {
    Text.DecimalRoundTrip(msg.line);
    match item
    case Literal(text) => text
    case Time(fmt) => env.timeText(fmt, msg.ctime)
    case Tab => "\t"
    case Thread => msg.tid
    case LevelName => env.levelName(msg.level)
    case LoggerName => msg.logger
    case FileName => msg.file
    case LineNumber => Text.DecimalString(msg.line)
    case Payload => msg.payload
    case Newline => "\n"
  }

  /** The items' outputs, left to right. */
  function Render(items: seq<Item>, msg: LogMsg, env: Env): string
  {
    if items == [] then [] else FormatItem(items[0], msg, env) + Render(items[1..], msg, env)
  }

  /** `format(std::ostream&, msg)`: the stream `out` after the loop over the items. */
  function FormatTo(f: Formatter, out: string, msg: LogMsg, env: Env): string
  {
    out + Render(f.items, msg, env)
  }

  /** `format(msg)`: what the stream overload writes into a fresh string stream. */
  function FormatMessage(f: Formatter, msg: LogMsg, env: Env): string
  {
    FormatTo(f, [], msg, env)
  }

  /** Rendering distributes over concatenation of plans. */
  lemma {:induction false} RenderAppend(a: seq<Item>, b: seq<Item>, msg: LogMsg, env: Env)
    ensures Render(a + b, msg, env) == Render(a, msg, env) + Render(b, msg, env)
  {
    if a != [] {
      assert (a + b)[1..] == a[1..] + b;
      RenderAppend(a[1..], b, msg, env);
    } else {
      assert a + b == b;
    }
  }

  /** The stream overload appends exactly the string overload's result. */
  lemma FormatToAppends(f: Formatter, out: string, msg: LogMsg, env: Env)
    ensures FormatTo(f, out, msg, env) == out + FormatMessage(f, msg, env)
  {
  }

  // ---------------------------------------------------------------------
  // Sample patterns

  /** Plain text, then a directive without braces. */
  lemma ScanTextBare(lit: string, k: char, rest: string)
    requires '%' !in lit && k != '%' && (rest == [] || rest[0] != '{')
    ensures Scan(lit + (['%', k] + rest), "") == Prepend(Flush(lit) + [Entry([k], [])], Scan(rest, ""))
  {
    EscapePlain(lit);
    ScanEscape(lit, ['%', k] + rest, "");
    assert "" + lit == lit;
    ScanBareDirective(k, rest, lit);
  }

  /** Plain text, then a directive with braces. */
  lemma ScanTextBraced(lit: string, k: char, sub: string, rest: string)
    requires '%' !in lit && k != '%' && NoClose(sub, 0, |sub|)
    ensures Scan(lit + ("%" + [k] + "{" + sub + "}" + rest), "") == Prepend(Flush(lit) + [Entry([k], sub)], Scan(rest, ""))
  {
    EscapePlain(lit);
    ScanEscape(lit, "%" + [k] + "{" + sub + "}" + rest, "");
    assert "" + lit == lit;
    ScanBracedDirective(k, sub, rest, lit);
  }

  /** Text, then the directive `%k`, or `%k{sub}` when `sub` is not empty, then `rest`. */
  function TextThen(lit: string, k: char, sub: string, rest: string): string
  {
    lit + ((if sub == [] then ['%', k] else "%" + [k] + "{" + sub + "}") + rest)
  }

  /** The conditions under which `TextThen` parses back into its two entries. */
  predicate PlainPiece(lit: string, k: char, sub: string, rest: string)
  {
    lit != [] && '%' !in lit && k != '%' && NoClose(sub, 0, |sub|)
    && (sub == [] ==> rest == [] || rest[0] != '{')
  }

  /** A piece of text and a directive, in front of text that parses, add their two entries in front. */
  lemma ScanTextThen(lit: string, k: char, sub: string, rest: string, tail: seq<Entry>)
    requires PlainPiece(lit, k, sub, rest) && Scan(rest, "") == Ok(tail)
    ensures Scan(TextThen(lit, k, sub, rest), "") == Ok([Entry("", lit), Entry([k], sub)] + tail)
  {
    if sub == [] {
      ScanTextBare(lit, k, rest);
    } else {
      ScanTextBraced(lit, k, sub, rest);
      assert lit + ("%" + [k] + "{" + sub + "}" + rest) == TextThen(lit, k, sub, rest);
    }
    assert Flush(lit) + [Entry([k], sub)] + tail == [Entry("", lit), Entry([k], sub)] + tail;
  }

  /** `%n`: a newline. */
  lemma ScanNewline()
    ensures Scan("%n", "") == Ok([Entry("n", "")])
  {
    ScanTextBare("", 'n', "");
    assert "%n" == "" + (['%', 'n'] + "");
    assert Flush("") + [Entry("n", "")] + [] == [Entry("n", "")];
  }

  /** `%m%n`: the payload, then a newline. */
  lemma ScanPayloadNewline()
    ensures Scan("%m%n", "") == Ok([Entry("m", ""), Entry("n", "")])
  {
    ScanNewline();
    ScanTextBare("", 'm', "%n");
    assert "%m%n" == "" + (['%', 'm'] + "%n");
    assert Flush("") + [Entry("m", "")] + [Entry("n", "")] == [Entry("m", ""), Entry("n", "")];
  }

  /** `<open>%p<close>%m%n`, such as `[%p]%m%n`. */
  function LevelPayloadShape(open: string, close: string): string
  {
    TextThen(open, 'p', "", TextThen(close, 'm', "", "%n"))
  }

  function LevelPayloadPlan(open: string, close: string): seq<Entry>
  {
    [Entry("", open), Entry("p", "")] + ([Entry("", close), Entry("m", "")] + [Entry("n", "")])
  }

  function LevelPayloadItems(open: string, close: string): seq<Item>
  {
    [Literal(open), LevelName] + ([Literal(close), Payload] + [Newline])
  }

  /** What a formatter for `<open>%p<close>%m%n` writes: the level name between the texts, the payload and a newline. */
  function LevelPayloadLine(open: string, close: string, msg: LogMsg, env: Env): string
  {
    open + (env.levelName(msg.level) + (close + (msg.payload + "\n")))
  }

  lemma LevelPayloadParses(open: string, close: string)
    requires open != [] && '%' !in open && close != [] && '%' !in close && close[0] != '{'
    ensures Scan(LevelPayloadShape(open, close), "") == Ok(LevelPayloadPlan(open, close))
  {
    ScanNewline();
    ScanTextThen(close, 'm', "", "%n", [Entry("n", "")]);
    ScanTextThen(open, 'p', "", TextThen(close, 'm', "", "%n"), [Entry("", close), Entry("m", "")] + [Entry("n", "")]);
  }

  lemma LevelPayloadItemsOk(open: string, close: string)
    ensures CreateItems(LevelPayloadPlan(open, close)) == Ok(LevelPayloadItems(open, close))
  {
    var n := [Entry("n", "")];
    assert CreateItems(n) == Ok([Newline]) by {
      assert n[1..] == [] && [Newline] + [] == [Newline];
    }
    CreateItemsPair(Entry("", close), Entry("m", ""), n);
    CreateItemsPair(Entry("", open), Entry("p", ""), [Entry("", close), Entry("m", "")] + n);
  }

  lemma LevelPayloadRender(open: string, close: string, msg: LogMsg, env: Env)
    ensures Render(LevelPayloadItems(open, close), msg, env) == LevelPayloadLine(open, close, msg, env)
  {
    assert Render([Newline], msg, env) == "\n" by {
      assert [Newline][1..] == [] && "\n" + [] == "\n";
    }
    RenderPair(Literal(close), Payload, [Newline], msg, env);
    RenderPair(Literal(open), LevelName, [Literal(close), Payload] + [Newline], msg, env);
  }

  /** A formatter for `<open>%p<close>%m%n` writes the level name between the two texts, the payload and a newline. */
  lemma LevelPayloadPattern(open: string, close: string, msg: LogMsg, env: Env)
    requires open != [] && '%' !in open && close != [] && '%' !in close && close[0] != '{'
    ensures Compile(LevelPayloadShape(open, close))
         == Ok(Formatter(LevelPayloadShape(open, close), LevelPayloadItems(open, close)))
    ensures FormatMessage(Compile(LevelPayloadShape(open, close)).value, msg, env) == LevelPayloadLine(open, close, msg, env)
  {
    LevelPayloadParses(open, close);
    LevelPayloadItemsOk(open, close);
    LevelPayloadRender(open, close, msg, env);
    assert [] + LevelPayloadLine(open, close, msg, env) == LevelPayloadLine(open, close, msg, env);
  }

  /** `[%p]%m%n` is that shape with `[` and `]`. */
  lemma BracketedLevelShape()
    ensures LevelPayloadShape("[", "]") == "[%p]%m%n"
  {
  }

  // The default pattern `[%d{%H:%M:%S}][%t][%c][%f:%l][%p]%T%m%n` has the
  // shape below with a = "[", b = "][", c = ":", d = "]" and tf = "%H:%M:%S".

  /** `<d>%T%m%n` */
  function TabTail(d: string): string
  {
    TextThen(d, 'T', "", "%m%n")
  }

  /** `<b>%f<c>%l<b>%p<d>%T%m%n` */
  function SourceTail(b: string, c: string, d: string): string
  {
    TextThen(b, 'f', "", TextThen(c, 'l', "", TextThen(b, 'p', "", TabTail(d))))
  }

  /** `<a>%d{<tf>}<b>%t<b>%c<b>%f<c>%l<b>%p<d>%T%m%n` */
  function DefaultShape(a: string, b: string, c: string, d: string, tf: string): string
  {
    TextThen(a, 'd', tf, TextThen(b, 't', "", TextThen(b, 'c', "", SourceTail(b, c, d))))
  }

  /** The texts between the directives of the default shape: plain, not starting with `{`. */
  predicate DefaultTexts(a: string, b: string, c: string, d: string, tf: string)
  {
    a != [] && '%' !in a && b != [] && '%' !in b && b[0] != '{'
    && c != [] && '%' !in c && c[0] != '{' && d != [] && '%' !in d && d[0] != '{'
    && tf != [] && NoClose(tf, 0, |tf|)
  }

  function TabTailPlan(d: string): seq<Entry>
  {
    [Entry("", d), Entry("T", "")] + [Entry("m", ""), Entry("n", "")]
  }

  function SourceTailPlan(b: string, c: string, d: string): seq<Entry>
  {
    [Entry("", b), Entry("f", "")] + ([Entry("", c), Entry("l", "")] + ([Entry("", b), Entry("p", "")] + TabTailPlan(d)))
  }

  function DefaultPlan(a: string, b: string, c: string, d: string, tf: string): seq<Entry>
  {
    [Entry("", a), Entry("d", tf)] + ([Entry("", b), Entry("t", "")] + ([Entry("", b), Entry("c", "")] + SourceTailPlan(b, c, d)))
  }

  lemma ScanTabTail(d: string)
    requires d != [] && '%' !in d
    ensures Scan(TabTail(d), "") == Ok(TabTailPlan(d))
  {
    ScanPayloadNewline();
    ScanTextThen(d, 'T', "", "%m%n", [Entry("m", ""), Entry("n", "")]);
  }

  lemma ScanSourceTail(b: string, c: string, d: string)
    requires b != [] && '%' !in b && b[0] != '{' && c != [] && '%' !in c && c[0] != '{' && d != [] && '%' !in d && d[0] != '{'
    ensures Scan(SourceTail(b, c, d), "") == Ok(SourceTailPlan(b, c, d))
  {
    ScanTabTail(d);
    var r1 := TextThen(b, 'p', "", TabTail(d));
    ScanTextThen(b, 'p', "", TabTail(d), TabTailPlan(d));
    var r2 := TextThen(c, 'l', "", r1);
    ScanTextThen(c, 'l', "", r1, [Entry("", b), Entry("p", "")] + TabTailPlan(d));
    ScanTextThen(b, 'f', "", r2, [Entry("", c), Entry("l", "")] + ([Entry("", b), Entry("p", "")] + TabTailPlan(d)));
  }

  /** The default shape parses into its sixteen entries. */
  lemma ScanDefaultShape(a: string, b: string, c: string, d: string, tf: string)
    requires DefaultTexts(a, b, c, d, tf)
    ensures Scan(DefaultShape(a, b, c, d, tf), "") == Ok(DefaultPlan(a, b, c, d, tf))
  {
    ScanSourceTail(b, c, d);
    var t := SourceTailPlan(b, c, d);
    var r1 := TextThen(b, 'c', "", SourceTail(b, c, d));
    ScanTextThen(b, 'c', "", SourceTail(b, c, d), t);
    var r2 := TextThen(b, 't', "", r1);
    ScanTextThen(b, 't', "", r1, [Entry("", b), Entry("c", "")] + t);
    ScanTextThen(a, 'd', tf, r2, [Entry("", b), Entry("t", "")] + ([Entry("", b), Entry("c", "")] + t));
  }

  function TabTailItems(d: string): seq<Item>
  {
    [Literal(d), Tab] + [Payload, Newline]
  }

  function SourceTailItems(b: string, c: string, d: string): seq<Item>
  {
    [Literal(b), FileName] + ([Literal(c), LineNumber] + ([Literal(b), LevelName] + TabTailItems(d)))
  }

  function DefaultItems(a: string, b: string, c: string, d: string, tf: string): seq<Item>
  {
    [Literal(a), Time(tf)] + ([Literal(b), Thread] + ([Literal(b), LoggerName] + SourceTailItems(b, c, d)))
  }

  /** Two known entries in front of a plan whose items exist add their two items in front. */
  lemma CreateItemsPair(e1: Entry, e2: Entry, tail: seq<Entry>)
    requires CreateItem(e1.key, e1.val).Ok? && CreateItem(e2.key, e2.val).Ok? && CreateItems(tail).Ok?
    ensures CreateItems([e1, e2] + tail)
         == Ok([CreateItem(e1.key, e1.val).value, CreateItem(e2.key, e2.val).value] + CreateItems(tail).value)
  {
    var p := [e1, e2] + tail;
    assert p[0] == e1 && p[1..] == [e2] + tail;
    assert ([e2] + tail)[0] == e2 && ([e2] + tail)[1..] == tail;
    var i1, i2, r := CreateItem(e1.key, e1.val).value, CreateItem(e2.key, e2.val).value, CreateItems(tail).value;
    assert [i1] + ([i2] + r) == [i1, i2] + r;
  }

  lemma TabTailItemsOk(d: string)
    ensures CreateItems(TabTailPlan(d)) == Ok(TabTailItems(d))
  {
    var mn := [Entry("m", ""), Entry("n", "")];
    assert CreateItems(mn) == Ok([Payload, Newline]) by {
      CreateItemsPair(Entry("m", ""), Entry("n", ""), []);
      assert mn + [] == mn && [Payload, Newline] + [] == [Payload, Newline];
    }
    CreateItemsPair(Entry("", d), Entry("T", ""), mn);
  }

  lemma SourceTailItemsOk(b: string, c: string, d: string)
    ensures CreateItems(SourceTailPlan(b, c, d)) == Ok(SourceTailItems(b, c, d))
  {
    TabTailItemsOk(d);
    var t1 := [Entry("", b), Entry("p", "")] + TabTailPlan(d);
    assert CreateItems(t1) == Ok([Literal(b), LevelName] + TabTailItems(d)) by {
      CreateItemsPair(Entry("", b), Entry("p", ""), TabTailPlan(d));
    }
    var t2 := [Entry("", c), Entry("l", "")] + t1;
    assert CreateItems(t2) == Ok([Literal(c), LineNumber] + ([Literal(b), LevelName] + TabTailItems(d))) by {
      CreateItemsPair(Entry("", c), Entry("l", ""), t1);
    }
    CreateItemsPair(Entry("", b), Entry("f", ""), t2);
  }

  lemma DefaultItemsOk(a: string, b: string, c: string, d: string, tf: string)
    ensures CreateItems(DefaultPlan(a, b, c, d, tf)) == Ok(DefaultItems(a, b, c, d, tf))
  {
    SourceTailItemsOk(b, c, d);
    var t3 := [Entry("", b), Entry("c", "")] + SourceTailPlan(b, c, d);
    assert CreateItems(t3) == Ok([Literal(b), LoggerName] + SourceTailItems(b, c, d)) by {
      CreateItemsPair(Entry("", b), Entry("c", ""), SourceTailPlan(b, c, d));
    }
    var t4 := [Entry("", b), Entry("t", "")] + t3;
    assert CreateItems(t4) == Ok([Literal(b), Thread] + ([Literal(b), LoggerName] + SourceTailItems(b, c, d))) by {
      CreateItemsPair(Entry("", b), Entry("t", ""), t3);
    }
    CreateItemsPair(Entry("", a), Entry("d", tf), t4);
  }

  /** The default shape compiles to its sixteen items, in order. */
  lemma DefaultShapeCompiles(a: string, b: string, c: string, d: string, tf: string)
    requires DefaultTexts(a, b, c, d, tf)
    ensures Compile(DefaultShape(a, b, c, d, tf)) == Ok(Formatter(DefaultShape(a, b, c, d, tf), DefaultItems(a, b, c, d, tf)))
  {
    ScanDefaultShape(a, b, c, d, tf);
    DefaultItemsOk(a, b, c, d, tf);
  }

  /** Two items in front write their two texts in front. */
  lemma RenderPair(i1: Item, i2: Item, rest: seq<Item>, msg: LogMsg, env: Env)
    ensures Render([i1, i2] + rest, msg, env) == FormatItem(i1, msg, env) + (FormatItem(i2, msg, env) + Render(rest, msg, env))
  {
    var p := [i1, i2] + rest;
    assert p[0] == i1 && p[1..] == [i2] + rest;
    assert ([i2] + rest)[0] == i2 && ([i2] + rest)[1..] == rest;
  }

  /** What the items of `<d>%T%m%n` write. */
  function TabTailLine(d: string, msg: LogMsg): string
  {
    d + ("\t" + (msg.payload + "\n"))
  }

  /** What the items of `<b>%f<c>%l<b>%p<d>%T%m%n` write. */
  function SourceTailLine(b: string, c: string, d: string, msg: LogMsg, env: Env): string
  {
    b + (msg.file + (c + (Text.DecimalString(msg.line) + (b + (env.levelName(msg.level) + TabTailLine(d, msg))))))
  }

  /**
   * What a formatter for the default shape writes: the time, thread,
   * logger, file, line, level, a tab, the payload and a newline, with the
   * texts between them.
   */
  function DefaultLine(a: string, b: string, c: string, d: string, tf: string, msg: LogMsg, env: Env): string
  {
    a + (env.timeText(tf, msg.ctime) + (b + (msg.tid + (b + (msg.logger + SourceTailLine(b, c, d, msg, env))))))
  }

  lemma RenderTabTail(d: string, msg: LogMsg, env: Env)
    ensures Render(TabTailItems(d), msg, env) == TabTailLine(d, msg)
  {
    assert Render([Payload, Newline], msg, env) == msg.payload + "\n" by {
      RenderPair(Payload, Newline, [], msg, env);
      assert [Payload, Newline] + [] == [Payload, Newline];
      assert "\n" + [] == "\n";
    }
    RenderPair(Literal(d), Tab, [Payload, Newline], msg, env);
  }

  lemma RenderSourceTail(b: string, c: string, d: string, msg: LogMsg, env: Env)
    ensures Render(SourceTailItems(b, c, d), msg, env) == SourceTailLine(b, c, d, msg, env)
  {
    RenderTabTail(d, msg, env);
    var t1 := [Literal(b), LevelName] + TabTailItems(d);
    assert Render(t1, msg, env) == b + (env.levelName(msg.level) + TabTailLine(d, msg)) by {
      RenderPair(Literal(b), LevelName, TabTailItems(d), msg, env);
    }
    var t2 := [Literal(c), LineNumber] + t1;
    assert Render(t2, msg, env) == c + (Text.DecimalString(msg.line) + (b + (env.levelName(msg.level) + TabTailLine(d, msg)))) by {
      RenderPair(Literal(c), LineNumber, t1, msg, env);
    }
    RenderPair(Literal(b), FileName, t2, msg, env);
  }

  lemma RenderDefaultItems(a: string, b: string, c: string, d: string, tf: string, msg: LogMsg, env: Env)
    ensures Render(DefaultItems(a, b, c, d, tf), msg, env) == DefaultLine(a, b, c, d, tf, msg, env)
  {
    RenderSourceTail(b, c, d, msg, env);
    var line := SourceTailLine(b, c, d, msg, env);
    var t3 := [Literal(b), LoggerName] + SourceTailItems(b, c, d);
    assert Render(t3, msg, env) == b + (msg.logger + line) by {
      RenderPair(Literal(b), LoggerName, SourceTailItems(b, c, d), msg, env);
    }
    var t4 := [Literal(b), Thread] + t3;
    assert Render(t4, msg, env) == b + (msg.tid + (b + (msg.logger + line))) by {
      RenderPair(Literal(b), Thread, t3, msg, env);
    }
    RenderPair(Literal(a), Time(tf), t4, msg, env);
  }

  /** A formatter for the default shape writes the time, thread, logger, file, line, level, a tab, the payload and a newline between the texts. */
  lemma DefaultShapeFormats(a: string, b: string, c: string, d: string, tf: string, msg: LogMsg, env: Env)
    requires DefaultTexts(a, b, c, d, tf)
    ensures Compile(DefaultShape(a, b, c, d, tf)).Ok?
    ensures Compile(DefaultShape(a, b, c, d, tf)).value.items == DefaultItems(a, b, c, d, tf)
    ensures FormatMessage(Compile(DefaultShape(a, b, c, d, tf)).value, msg, env) == DefaultLine(a, b, c, d, tf, msg, env)
  {
    DefaultShapeCompiles(a, b, c, d, tf);
    RenderDefaultItems(a, b, c, d, tf, msg, env);
    assert [] + DefaultLine(a, b, c, d, tf, msg, env) == DefaultLine(a, b, c, d, tf, msg, env);
  }

  lemma DefaultSourceTailText()
    ensures SourceTail("][", ":", "]") == "][%f:%l][%p]%T%m%n"
  {
    assert TabTail("]") == "]%T%m%n";
    assert TextThen("][", 'p', "", "]%T%m%n") == "][%p]%T%m%n";
    assert TextThen(":", 'l', "", "][%p]%T%m%n") == ":%l][%p]%T%m%n";
  }

  lemma DefaultLoggerText()
    ensures TextThen("][", 'c', "", SourceTail("][", ":", "]")) == "][%c][%f:%l][%p]%T%m%n"
  {
    DefaultSourceTailText();
  }

  lemma DefaultMiddleText()
    ensures TextThen("][", 't', "", TextThen("][", 'c', "", SourceTail("][", ":", "]")))
         == "][%t][%c][%f:%l][%p]%T%m%n"
  {
    DefaultLoggerText();
  }

  /** The constructor's default pattern is the default shape with `[`, `][`, `:`, `]` and `%H:%M:%S`. */
  lemma DefaultPatternShape()
    ensures DEFAULT_PATTERN == DefaultShape("[", "][", ":", "]", "%H:%M:%S")
  {
    DefaultMiddleText();
    DefaultTimeText("][%t][%c][%f:%l][%p]%T%m%n");
    DefaultPatternHead();
    DefaultPatternRest();
    assert DEFAULT_PATTERN == DEFAULT_PATTERN[..13] + DEFAULT_PATTERN[13..];
  }

  lemma DefaultPatternHead()
    ensures |DEFAULT_PATTERN| >= 13 && DEFAULT_PATTERN[..13] == "[%d{%H:%M:%S}"
  {
  }

  lemma DefaultPatternRest()
    ensures |DEFAULT_PATTERN| >= 13 && DEFAULT_PATTERN[13..] == "][%t][%c][%f:%l][%p]%T%m%n"
  {
  }

  lemma DefaultTimeText(rest: string)
    ensures TextThen("[", 'd', "%H:%M:%S", rest) == "[%d{%H:%M:%S}" + rest
  {
    assert "%" + ['d'] + "{" + "%H:%M:%S" + "}" == "%d{%H:%M:%S}";
  }

  /** The texts of the default pattern meet the conditions of the default shape. */
  lemma DefaultPatternTexts()
    ensures DefaultTexts("[", "][", ":", "]", "%H:%M:%S")
  {
    assert NoClose("%H:%M:%S", 0, 8);
  }

  /**
   * A formatter built with the default pattern writes
   * `[<time %H:%M:%S>][<thread>][<logger>][<file>:<line>][<level>]\t<payload>\n`.
   */
  lemma DefaultPatternFormats(msg: LogMsg, env: Env)
    ensures Compile(DEFAULT_PATTERN).Ok?
    ensures Compile(DEFAULT_PATTERN).value.items == DefaultItems("[", "][", ":", "]", "%H:%M:%S")
    ensures FormatMessage(Compile(DEFAULT_PATTERN).value, msg, env) == DefaultLine("[", "][", ":", "]", "%H:%M:%S", msg, env)
  {
    DefaultPatternShape();
    DefaultPatternTexts();
    DefaultShapeCompiles("[", "][", ":", "]", "%H:%M:%S");
    DefaultShapeFormats("[", "][", ":", "]", "%H:%M:%S", msg, env);
  }

  /** A formatter for `[%p]%m%n` writes the level name in brackets, the payload and a newline. */
  lemma BracketedLevelFormats(msg: LogMsg, env: Env)
    ensures Compile("[%p]%m%n") == Ok(Formatter("[%p]%m%n", LevelPayloadItems("[", "]")))
    ensures FormatMessage(Compile("[%p]%m%n").value, msg, env) == "[" + (env.levelName(msg.level) + ("]" + (msg.payload + "\n")))
  {
    BracketedLevelShape();
    LevelPayloadPattern("[", "]", msg, env);
  }

  // ---------------------------------------------------------------------
  // Builds without assertions

  /**
   * The constructor as compiled with NDEBUG: `parsePattern()` is only called
   * inside `assert`, so it disappears with the assertion and the item list
   * stays empty.
   */
  function CompileWithoutAsserts(pattern: string): (f: Formatter)
    ensures f.pattern == pattern
    ensures forall msg: LogMsg, env: Env :: FormatMessage(f, msg, env) == []
  {
    Formatter(pattern, [])
  }

  /** `%m` alone: the intended formatter writes the payload, the NDEBUG one writes nothing. */
  lemma ReleaseBuildFormatsNothing(msg: LogMsg, env: Env)
    ensures Compile("%m") == Ok(Formatter("%m", [Payload]))
    ensures FormatMessage(Compile("%m").value, msg, env) == msg.payload
    ensures FormatMessage(CompileWithoutAsserts("%m"), msg, env) == []
  {
    var p := "%m";
    assert p[0..] == p && p[2..] == [];
    ScanBareAt(p, 0, "");
    assert [p[1]] == "m" && Flush("") + [Entry("m", [])] == [Entry("m", [])];
    assert [Entry("m", [])] + [] == [Entry("m", [])];
    assert Scan(p, "") == Ok([Entry("m", [])]);
    var plan := [Entry("m", [])];
    assert CreateItem(plan[0].key, plan[0].val) == Ok(Payload);
    assert plan[1..] == [] && CreateItems(plan[1..]) == Ok([]);
    assert [Payload] + [] == [Payload];
    assert CreateItems(plan) == Ok([Payload]);
    assert Render([Payload], msg, env) == msg.payload + Render([], msg, env);
  }
}
