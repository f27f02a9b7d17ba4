/**
 * Translation of a SQLite-dialect query into the PostgreSQL dialect, as the
 * PostgreSQL adapter does before each statement: `?` placeholders become
 * `$1, $2, ...` and the matching parameter list is built alongside, then
 * four SQLite constructs are rewritten.
 *
 * A JavaScript `undefined` parameter (the source reads past the end of the
 * caller's list when there are more `?` than parameters) is `None`.
 */
module PgAdapter {
  import opened Optional
  import opened Decimal

  /** Number of occurrences of `c` in `s`. */
  function CountChar(s: string, c: char): nat
    decreases |s|
  {
    if s == [] then 0 else (if s[0] == c then 1 else 0) + CountChar(s[1..], c)
  }

  lemma {:induction false} CountCharConcat(a: string, b: string, c: char)
    ensures CountChar(a + b, c) == CountChar(a, c) + CountChar(b, c)
    decreases |a|
  {
    if a == [] {
      assert a + b == b;
    } else {
      assert (a + b)[0] == a[0];
      assert (a + b)[1..] == a[1..] + b;
      CountCharConcat(a[1..], b, c);
    }
  }

  /** `s` with each `?`, from left to right, replaced by `$n`, `$n+1`, ... */
  function NumberPlaceholders(s: string, n: nat): string
    decreases |s|
  {
    if s == [] then []
    else if s[0] == '?' then "$" + NatToString(n) + NumberPlaceholders(s[1..], n + 1)
    else [s[0]] + NumberPlaceholders(s[1..], n)
  }

  /** No `?` survives the numbering. */
  lemma {:induction false} NoPlaceholderLeft(s: string, n: nat)
    ensures '?' !in NumberPlaceholders(s, n)
    decreases |s|
  {
    if s != [] {
      if s[0] == '?' {
        NoPlaceholderLeft(s[1..], n + 1);
      } else {
        NoPlaceholderLeft(s[1..], n);
      }
    }
  }

  /** A text without `?` is left as it is. */
  lemma {:induction false} NumberPlaceholdersIdentity(s: string, n: nat)
    requires '?' !in s
    ensures NumberPlaceholders(s, n) == s
    decreases |s|
  {
    if s != [] {
      assert s[0] in s;
      assert forall c :: c in s[1..] ==> c in s;
      NumberPlaceholdersIdentity(s[1..], n);
      assert [s[0]] + s[1..] == s;
    }
  }

  /** Numbering a concatenation numbers the second part after the first part's placeholders. */
  lemma {:induction false} NumberPlaceholdersConcat(a: string, b: string, n: nat)
    ensures NumberPlaceholders(a + b, n) == NumberPlaceholders(a, n) + NumberPlaceholders(b, n + CountChar(a, '?'))
    decreases |a|
  {
    if a == [] {
      assert a + b == b;
    } else {
      var m := if a[0] == '?' then n + 1 else n;
      assert (a + b)[0] == a[0];
      assert (a + b)[1..] == a[1..] + b;
      NumberPlaceholdersConcat(a[1..], b, m);
    }
  }

  /** The `?` preceded by k others is numbered `$(k+1)`. */
  lemma PlaceholderNumber(before: string, after: string)
    ensures NumberPlaceholders(before + "?" + after, 1)
         == NumberPlaceholders(before, 1) + "$" + NatToString(CountChar(before, '?') + 1)
            + NumberPlaceholders(after, CountChar(before, '?') + 2)
  {
    var k := CountChar(before, '?');
    var tail := "?" + after;
    assert before + "?" + after == before + tail;
    NumberPlaceholdersConcat(before, tail, 1);
    assert tail[0] == '?' && tail[1..] == after;
    var numbered := NumberPlaceholders(before, 1);
    var rest := "$" + NatToString(k + 1) + NumberPlaceholders(after, k + 2);
    assert NumberPlaceholders(tail, 1 + k) == rest;
    assert numbered + rest == numbered + "$" + NatToString(k + 1) + NumberPlaceholders(after, k + 2);
  }

  predicate StartsWith(s: string, pat: string) {
    |pat| <= |s| && s[..|pat|] == pat
  }

  /** `pat` occurs somewhere in `s`. */
  predicate Occurs(pat: string, s: string) {
    exists i :: 0 <= i <= |s| && StartsWith(s[i..], pat)
  }

  /** A global replace of a literal: matches are found left to right and do not overlap. */
  function ReplaceAll(s: string, pat: string, rep: string): string
    requires pat != []
    decreases |s|
  {
    if |s| < |pat| then s
    else if StartsWith(s, pat) then rep + ReplaceAll(s[|pat|..], pat, rep)
    else [s[0]] + ReplaceAll(s[1..], pat, rep)
  }

  /** A text in which the pattern does not occur is left as it is. */
  lemma {:induction false} ReplaceAllNoMatch(s: string, pat: string, rep: string)
    requires pat != [] && !Occurs(pat, s)
    ensures ReplaceAll(s, pat, rep) == s
    decreases |s|
  {
    if |s| >= |pat| {
      assert s[0..] == s;
      assert !StartsWith(s, pat);
      assert !Occurs(pat, s[1..]) by {
        forall i | 0 <= i <= |s[1..]| ensures !StartsWith(s[1..][i..], pat) {
          assert s[1..][i..] == s[i + 1..];
        }
      }
      ReplaceAllNoMatch(s[1..], pat, rep);
    }
  }

  /** Dropping the first character keeps the positions without a match free of one. */
  lemma UnmatchedAfterFirst(a: string, b: string, pat: string)
    requires a != []
    requires forall i :: 0 <= i < |a| ==> !StartsWith((a + b)[i..], pat)
    ensures forall i :: 0 <= i < |a[1..]| ==> !StartsWith((a[1..] + b)[i..], pat)
  {
    forall i | 0 <= i < |a[1..]| ensures !StartsWith((a[1..] + b)[i..], pat) {
      assert (a[1..] + b)[i..] == (a + b)[i + 1..];
    }
  }

  /** Text before which no match starts is copied unchanged. */
  lemma {:induction false} ReplaceAllCopiesUnmatched(a: string, b: string, pat: string, rep: string)
    requires pat != []
    requires forall i :: 0 <= i < |a| ==> !StartsWith((a + b)[i..], pat)
    ensures ReplaceAll(a + b, pat, rep) == a + ReplaceAll(b, pat, rep)
    decreases |a|
  {
    if a == [] {
      assert a + b == b;
    } else {
      var s := a + b;
      assert s[0..] == s;
      assert s[0] == a[0];
      assert s[1..] == a[1..] + b;
      UnmatchedAfterFirst(a, b, pat);
      ReplaceAllCopiesUnmatched(a[1..], b, pat, rep);
      var tail := ReplaceAll(b, pat, rep);
      assert ReplaceAll(a[1..] + b, pat, rep) == a[1..] + tail;
      if |s| >= |pat| {
        assert !StartsWith(s, pat);
        assert ReplaceAll(s, pat, rep) == [a[0]] + (a[1..] + tail);
      } else {
        assert |b| < |pat|;
        assert ReplaceAll(a[1..] + b, pat, rep) == a[1..] + b;
        assert tail == b;
      }
      assert [a[0]] + (a[1..] + tail) == a + tail;
    }
  }

  /** A match at the front is replaced, and the search resumes after it. */
  lemma ReplaceAllAtMatch(b: string, pat: string, rep: string)
    requires pat != []
    ensures ReplaceAll(pat + b, pat, rep) == rep + ReplaceAll(b, pat, rep)
  {
    assert (pat + b)[..|pat|] == pat;
    assert (pat + b)[|pat|..] == b;
  }

  /** A character absent from the text and from the replacement is absent from the result. */
  lemma {:induction false} ReplaceAllKeepsOut(s: string, pat: string, rep: string, c: char)
    requires pat != [] && c !in s && c !in rep
    ensures c !in ReplaceAll(s, pat, rep)
    decreases |s|
  {
    if |s| < |pat| {
    } else if StartsWith(s, pat) {
      ReplaceAllKeepsOut(s[|pat|..], pat, rep, c);
    } else {
      ReplaceAllKeepsOut(s[1..], pat, rep, c);
    }
  }

  function Lower(c: char): char {
    if 'A' <= c <= 'Z' then ((c as int) + 32) as char else c
  }

  /** `s` starts with `pat` up to ASCII letter case, as a case-insensitive regular expression compares. */
  predicate StartsWithIgnoreCase(s: string, pat: string) {
    |pat| <= |s| && forall i :: 0 <= i < |pat| ==> Lower(s[i]) == Lower(pat[i])
  }

  /** The characters the regular-expression class `\s` matches. */
  predicate IsRegexSpace(c: char) {
    c == '\t' || c == '\n' || c == '\U{000B}' || c == '\U{000C}' || c == '\r' || c == ' '
    || c == '\U{00A0}' || c == '\U{1680}' || ('\U{2000}' <= c <= '\U{200A}')
    || c == '\U{2028}' || c == '\U{2029}' || c == '\U{202F}' || c == '\U{205F}'
    || c == '\U{3000}' || c == '\U{FEFF}'
  }

  /** Length of the run of `\s` characters that starts `s`. */
  function SpaceRun(s: string): (n: nat)
    ensures n <= |s|
    ensures forall i :: 0 <= i < n ==> IsRegexSpace(s[i])
    ensures n < |s| ==> !IsRegexSpace(s[n])
    decreases |s|
  {
    if s != [] && IsRegexSpace(s[0]) then 1 + SpaceRun(s[1..]) else 0
  }

  const StrftimeHead: string := "strftime('%s',"
  const StrftimeTail: string := "'now')"
  const EpochNow: string := "EXTRACT(EPOCH FROM NOW())::INTEGER"

  /**
   * Length of the match of `strftime\('%s',\s*'now'\)`, case-insensitively,
   * at the start of `s`, if there is one. The `\s*` run cannot end early,
   * since the quote that must follow it is not a space.
   */
  function StrftimeMatch(s: string): (r: Option<nat>)
    ensures r.Some? ==> |StrftimeHead| + |StrftimeTail| <= r.value <= |s|
    ensures r.Some? <==> StartsWithIgnoreCase(s, StrftimeHead)
                         && StartsWithIgnoreCase(s[|StrftimeHead| + SpaceRun(s[|StrftimeHead|..])..], StrftimeTail)
  {
    if !StartsWithIgnoreCase(s, StrftimeHead) then None
    else
      var k := |StrftimeHead| + SpaceRun(s[|StrftimeHead|..]);
      if StartsWithIgnoreCase(s[k..], StrftimeTail) then Some(k + |StrftimeTail|) else None
  }

  /** The global, case-insensitive replace of the `strftime` epoch call. */
  function ReplaceStrftime(s: string): string
    decreases |s|
  {
    if s == [] then []
    else match StrftimeMatch(s)
      case Some(n) => EpochNow + ReplaceStrftime(s[n..])
      case None => [s[0]] + ReplaceStrftime(s[1..])
  }

  /** A text with no `strftime` epoch call anywhere is left as it is. */
  lemma {:induction false} ReplaceStrftimeNoMatch(s: string)
    requires forall i :: 0 <= i <= |s| ==> StrftimeMatch(s[i..]).None?
    ensures ReplaceStrftime(s) == s
    decreases |s|
  {
    if s != [] {
      assert s[0..] == s;
      forall i | 0 <= i <= |s[1..]| ensures StrftimeMatch(s[1..][i..]).None? {
        assert s[1..][i..] == s[i + 1..];
      }
      ReplaceStrftimeNoMatch(s[1..]);
    }
  }

  /** A character absent from the text and from the epoch expression is absent from the result. */
  lemma {:induction false} ReplaceStrftimeKeepsOut(s: string, c: char)
    requires c !in s && c !in EpochNow
    ensures c !in ReplaceStrftime(s)
    decreases |s|
  {
    if s != [] {
      match StrftimeMatch(s)
      case Some(n) =>
        ReplaceStrftimeKeepsOut(s[n..], c);
      case None =>
        ReplaceStrftimeKeepsOut(s[1..], c);
    }
  }

  /** A run of `\s` characters followed by a non-space is exactly as long as the run. */
  lemma {:induction false} SpaceRunOf(ws: string, t: string)
    requires forall i :: 0 <= i < |ws| ==> IsRegexSpace(ws[i])
    requires t != [] && !IsRegexSpace(t[0])
    ensures SpaceRun(ws + t) == |ws|
    decreases |ws|
  {
    if ws == [] {
      assert ws + t == t;
    } else {
      assert (ws + t)[0] == ws[0];
      assert (ws + t)[1..] == ws[1..] + t;
      SpaceRunOf(ws[1..], t);
    }
  }

  /**
   * The `strftime` epoch call is recognised in any letter case and with any
   * run of `\s` characters after the comma, and the search resumes after it.
   */
  lemma StrftimeRecognised(head: string, ws: string, tail: string, rest: string)
    requires |head| == |StrftimeHead| && StartsWithIgnoreCase(head, StrftimeHead)
    requires forall i :: 0 <= i < |ws| ==> IsRegexSpace(ws[i])
    requires |tail| == |StrftimeTail| && StartsWithIgnoreCase(tail, StrftimeTail)
    ensures ReplaceStrftime(head + ws + tail + rest) == EpochNow + ReplaceStrftime(rest)
  {
    var s := head + ws + tail + rest;
    var h := |StrftimeHead|;
    assert s[..h] == head;
    assert StartsWithIgnoreCase(s, StrftimeHead) by {
      forall i | 0 <= i < h ensures Lower(s[i]) == Lower(StrftimeHead[i]) {
        assert s[i] == head[i];
      }
    }
    assert Lower(tail[0]) == Lower(StrftimeTail[0]);
    assert tail[0] == '\'';
    assert s[h..] == ws + (tail + rest);
    SpaceRunOf(ws, tail + rest);
    var k := h + |ws|;
    assert s[k..] == tail + rest;
    assert StartsWithIgnoreCase(s[k..], StrftimeTail) by {
      forall i | 0 <= i < |StrftimeTail| ensures Lower(s[k..][i]) == Lower(StrftimeTail[i]) {
        assert s[k..][i] == tail[i];
      }
    }
    assert s[k..][|tail|..] == rest;
    assert s[k + |StrftimeTail|..] == s[k..][|tail|..];
  }

  /** The upper-case spelling of the call matches. */
  lemma StrftimeUpperCase()
    ensures StartsWithIgnoreCase("STRFTIME('%S',", StrftimeHead)
    ensures StartsWithIgnoreCase("'NOW')", StrftimeTail)
  {
  }

  const Autoincrement: string := "INTEGER PRIMARY KEY AUTOINCREMENT"
  const Serial: string := "SERIAL PRIMARY KEY"
  const InsertOrIgnore: string := "INSERT OR IGNORE INTO"
  const InsertOrReplace: string := "INSERT OR REPLACE INTO"
  const InsertInto: string := "INSERT INTO"

  /** The four SQLite-to-PostgreSQL rewrites, in the order the adapter applies them. */
  function RewriteDialect(s: string): string {
    var serial := ReplaceAll(s, Autoincrement, Serial);
    var epoch := ReplaceStrftime(serial);
    var ignore := ReplaceAll(epoch, InsertOrIgnore, InsertInto);
    ReplaceAll(ignore, InsertOrReplace, InsertInto)
  }

  /** None of the rewritten constructs appears in `s`. */
  predicate NoDialectConstruct(s: string) {
    && !Occurs(Autoincrement, s)
    && (forall i :: 0 <= i <= |s| ==> StrftimeMatch(s[i..]).None?)
    && !Occurs(InsertOrIgnore, s)
    && !Occurs(InsertOrReplace, s)
  }

  /** A query without any of the rewritten constructs passes through unchanged. */
  lemma RewriteDialectIdentity(s: string)
    requires NoDialectConstruct(s)
    ensures RewriteDialect(s) == s
  {
    ReplaceAllNoMatch(s, Autoincrement, Serial);
    ReplaceStrftimeNoMatch(s);
    ReplaceAllNoMatch(s, InsertOrIgnore, InsertInto);
    ReplaceAllNoMatch(s, InsertOrReplace, InsertInto);
  }

  /** One character of the placeholder pass: what it appends and how the count moves. */
  lemma PlaceholderStep(query: string, i: nat)
    requires i < |query|
    ensures CountChar(query[..i + 1], '?') == CountChar(query[..i], '?') + (if query[i] == '?' then 1 else 0)
    ensures NumberPlaceholders(query[..i + 1], 1)
         == NumberPlaceholders(query[..i], 1)
            + (if query[i] == '?' then "$" + NatToString(CountChar(query[..i], '?') + 1) else [query[i]])
  {
    assert query[..i + 1] == query[..i] + [query[i]];
    CountCharConcat(query[..i], [query[i]], '?');
    NumberPlaceholdersConcat(query[..i], [query[i]], 1);
    assert [query[i]][1..] == [];
  }

  /**
   * The placeholder pass: each `?` becomes `$n` with n counting from 1, and
   * the parameter list gets one entry per `?`, the caller's parameter at
   * that position or `None` past the end of the caller's list; surplus
   * parameters are dropped.
   */
  method ReplacePlaceholders<P>(query: string, params: seq<P>) returns (numbered: string, pgParams: seq<Option<P>>)
    ensures numbered == NumberPlaceholders(query, 1)
    ensures '?' !in numbered
    ensures |pgParams| == CountChar(query, '?')
    ensures forall i :: 0 <= i < |pgParams| ==> pgParams[i] == if i < |params| then Some(params[i]) else None
  {
    numbered := "";
    pgParams := [];
    var paramIndex := 1;

    var i := 0;
    while i < |query|
      invariant 0 <= i <= |query|
      invariant paramIndex == CountChar(query[..i], '?') + 1
      invariant numbered == NumberPlaceholders(query[..i], 1)
      invariant |pgParams| == paramIndex - 1
      invariant forall k :: 0 <= k < |pgParams| ==> pgParams[k] == if k < |params| then Some(params[k]) else None
    {
      PlaceholderStep(query, i);
      if query[i] == '?' {
        pgParams := pgParams + [if paramIndex - 1 < |params| then Some(params[paramIndex - 1]) else None];
        numbered := numbered + "$" + NatToString(paramIndex);
        paramIndex := paramIndex + 1;
      } else {
        numbered := numbered + [query[i]];
      }
      i := i + 1;
    }
    assert query[..i] == query;
    NoPlaceholderLeft(query, 1);
  }

  /** Converts a query and its parameters: the placeholder pass, then the dialect rewrites. */
  method ConvertQuery<P>(query: string, params: seq<P>) returns (pgQuery: string, pgParams: seq<Option<P>>)
    ensures pgQuery == RewriteDialect(NumberPlaceholders(query, 1))
    ensures '?' !in pgQuery
    ensures |pgParams| == CountChar(query, '?')
    ensures forall i :: 0 <= i < |pgParams| ==> pgParams[i] == if i < |params| then Some(params[i]) else None
  {
    pgQuery, pgParams := ReplacePlaceholders(query, params);
    ReplaceAllKeepsOut(pgQuery, Autoincrement, Serial, '?');
    pgQuery := ReplaceAll(pgQuery, Autoincrement, Serial);
    ReplaceStrftimeKeepsOut(pgQuery, '?');
    pgQuery := ReplaceStrftime(pgQuery);
    ReplaceAllKeepsOut(pgQuery, InsertOrIgnore, InsertInto, '?');
    pgQuery := ReplaceAll(pgQuery, InsertOrIgnore, InsertInto);
    ReplaceAllKeepsOut(pgQuery, InsertOrReplace, InsertInto, '?');
    pgQuery := ReplaceAll(pgQuery, InsertOrReplace, InsertInto);
  }

  /** A query with no placeholder and no rewritten construct is returned unchanged. */
  lemma PlainQueryUnchanged(query: string)
    requires '?' !in query && NoDialectConstruct(query)
    ensures RewriteDialect(NumberPlaceholders(query, 1)) == query
  {
    NumberPlaceholdersIdentity(query, 1);
    RewriteDialectIdentity(query);
  }

  /** Both SQLite upsert spellings become a plain insert, and the autoincrement key a serial one. */
  lemma InsertVariants(rest: string)
    ensures ReplaceAll(InsertOrIgnore + rest, InsertOrIgnore, InsertInto) == InsertInto + ReplaceAll(rest, InsertOrIgnore, InsertInto)
    ensures ReplaceAll(InsertOrReplace + rest, InsertOrReplace, InsertInto) == InsertInto + ReplaceAll(rest, InsertOrReplace, InsertInto)
    ensures ReplaceAll(Autoincrement + rest, Autoincrement, Serial) == Serial + ReplaceAll(rest, Autoincrement, Serial)
  {
    ReplaceAllAtMatch(rest, InsertOrIgnore, InsertInto);
    ReplaceAllAtMatch(rest, InsertOrReplace, InsertInto);
    ReplaceAllAtMatch(rest, Autoincrement, Serial);
  }
}
