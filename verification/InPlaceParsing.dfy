/**
 * `nmo_parse_routes` and `nmo_parse_dns` as they run: strtok_r over a mutable copy of the
 * variable, NUL writes at separators and slashes, and an output array filled from the left.
 */
module InPlaceParsing {
  import opened Options
  import opened Text
  import opened NetParams

  /** The memory holds the C string `t` at `at`, ending no later than `limit`. */
  ghost predicate Holds(mem: seq<char>, at: nat, t: string, limit: nat) {
    && at + |t| <= limit <= |mem|
    && at + |t| < |mem|
    && mem[at..at + |t|] == t
    && NUL !in t
    && mem[at + |t|] == NUL
  }

  lemma {:induction false} CStringIs(mem: seq<char>, at: nat, t: string, limit: nat)
    requires Holds(mem, at, t, limit)
    ensures CString(mem, at) == t
    decreases |t|
  {
    if t == "" {
    } else {
      assert mem[at] == t[0] && mem[at] in t;
      assert mem[at + 1..at + 1 + |t[1..]|] == t[1..];
      CStringIs(mem, at + 1, t[1..], limit);
    }
  }

  /** Writing NUL at the slash cuts the token in two and leaves all that follows alone. */
  lemma CutToken(mem: seq<char>, at: nat, t: string, limit: nat, k: nat)
    requires Holds(mem, at, t, limit) && k < |t|
    ensures Holds(mem[at + k := NUL], at, t[..k], limit)
    ensures Holds(mem[at + k := NUL], at + k + 1, t[k + 1..], limit)
  {
    var cut := mem[at + k := NUL];
    assert cut[at..at + k] == mem[at..at + |t|][..k];
    assert cut[at + k + 1..at + |t|] == mem[at..at + |t|][k + 1..];
  }

  /** The unread part of the buffer is still the tail of the variable. */
  ghost predicate Unread(mem: seq<char>, env: string, from: nat) {
    from <= |env| && |mem| == |env| + 1 && mem[from..] == env[from..] + [NUL]
  }

  /** What one call of strtok_r finds when reading resumes at `from`. */
  ghost predicate Tokenized(mem: seq<char>, env: string, from: nat, tok: int, save: nat) {
    && from <= save <= |env|
    && (tok < 0 ==> forall i :: from <= i < |env| ==> env[i] == ',')
    && (tok >= 0 ==>
          && from <= tok < save
          && (forall i :: from <= i < tok ==> env[i] == ',')
          && var len := IndexOf(env[tok..], ',');
             && save == (if tok + len < |env| then tok + len + 1 else |env|)
             && Holds(mem, tok, env[tok..tok + len], save))
  }

  /** The unread text, character by character. */
  lemma UnreadAt(mem: seq<char>, env: string, from: nat, i: nat)
    requires Unread(mem, env, from) && NUL !in env && from <= i <= |env|
    ensures mem[i] == if i < |env| then env[i] else NUL
    ensures i < |env| ==> mem[i] != NUL
  {
    assert mem[i] == mem[from..][i - from];
    assert i < |env| ==> env[i] in env;
  }

  lemma UnreadLater(mem: seq<char>, env: string, from: nat, later: nat)
    requires Unread(mem, env, from) && from <= later <= |env|
    ensures Unread(mem, env, later)
  {
    assert mem[later..] == mem[from..][later - from..];
    assert env[later..] == env[from..][later - from..];
  }

  /** Ending the token with a NUL leaves a C string before it and the unread text after it. */
  lemma EndedToken(mem: seq<char>, env: string, start: nat, end: nat)
    requires Unread(mem, env, start) && NUL !in env && start <= end <= |env|
    ensures end < |env| ==>
      && Holds(mem[end := NUL], start, env[start..end], end + 1)
      && Unread(mem[end := NUL], env, end + 1)
    ensures end == |env| ==> Holds(mem, start, env[start..end], end)
  {
    UnreadAt(mem, env, start, end);
    assert mem[start..end] == mem[start..][..end - start] == env[start..end];
    assert mem[end := NUL][start..end] == mem[start..end];
    if end < |env| {
      UnreadLater(mem, env, start, end + 1);
      assert mem[end := NUL][end + 1..] == mem[end + 1..];
    }
  }

  /** strspn: the first character from `from` on that is not a separator. */
  method SkipCommas(buf: array<char>, from: nat, ghost env: string) returns (start: nat)
    requires NUL !in env && Unread(buf[..], env, from)
    ensures from <= start <= |env| && (start < |env| ==> env[start] != ',')
    ensures forall i :: from <= i < start ==> env[i] == ','
  {
    start := from;
    UnreadAt(buf[..], env, from, start);
    while buf[start] == ','
      invariant from <= start <= |env| && buf[start] == (if start < |env| then env[start] else NUL)
      invariant forall i :: from <= i < start ==> env[i] == ','
      decreases |env| - start
    {
      start := start + 1;
      UnreadAt(buf[..], env, from, start);
    }
  }

  /** strcspn: the first separator from `start` on, or the end of the text. */
  method TokenEnd(buf: array<char>, start: nat, ghost env: string) returns (end: nat)
    requires NUL !in env && Unread(buf[..], env, start)
    ensures start <= end <= |env| && IndexOf(env[start..], ',') == end - start
    ensures buf[end] == NUL <==> end == |env|
  {
    end := start;
    UnreadAt(buf[..], env, start, end);
    while buf[end] != NUL && buf[end] != ','
      invariant start <= end <= |env| && buf[end] == (if end < |env| then env[end] else NUL)
      invariant end < |env| ==> buf[end] != NUL
      invariant forall i :: start <= i < end ==> env[i] != ','
      decreases |env| - end
    {
      end := end + 1;
      UnreadAt(buf[..], env, start, end);
    }
    if end < |env| {
      IndexOfIs(env[start..], ',', end - start);
    }
  }

  /**
   * strtok_r(NULL, ",", &save) with `from` as the saved position: skip separators, end the
   * token with a NUL and return where it starts, or -1 at the end of the text.
   */
  method StrtokR(buf: array<char>, from: nat, ghost env: string) returns (tok: int, save: nat)
    requires NUL !in env && Unread(buf[..], env, from)
    modifies buf
    ensures Unread(buf[..], env, save) && Tokenized(buf[..], env, from, tok, save)
  {
    var start := SkipCommas(buf, from, env);
    UnreadLater(buf[..], env, from, start);
    UnreadAt(buf[..], env, start, start);
    if buf[start] == NUL {
      return -1, start;
    }
    var end := TokenEnd(buf, start, env);
    UnreadLater(buf[..], env, start, end);
    EndedToken(buf[..], env, start, end);
    if buf[end] == NUL {
      return start, end;
    }
    ghost var before := buf[..];
    buf[end] := NUL;
    assert buf[..] == before[end := NUL];
    return start, end + 1;
  }

  lemma {:induction false} SkipSeparators<T>(parse: string -> Option<T>, env: string, from: nat, tok: nat)
    requires parse("").None? && from <= tok <= |env|
    requires forall i :: from <= i < tok ==> env[i] == ','
    ensures Entries(parse, env[from..]) == Entries(parse, env[tok..])
    decreases tok
  {
    if from == tok {
    } else {
      SkipSeparators(parse, env, from, tok - 1);
      SkipSeparator(parse, env[tok - 1..]);
      assert env[tok - 1..][1..] == env[tok..];
    }
  }

  lemma NoEntries<T>(parse: string -> Option<T>)
    requires parse("").None?
    ensures Entries(parse, "") == []
  {
    SplitField("", "", ',');
    assert Split("", ',') == [""];
    assert Collect(parse, [""]) == [];
  }

  lemma TokenIsEntry<T>(parse: string -> Option<T>, env: string, tok: nat, len: nat, save: nat)
    requires parse("").None? && tok <= |env| && len == IndexOf(env[tok..], ',')
    requires save == if tok + len < |env| then tok + len + 1 else |env|
    ensures Entries(parse, env[tok..]) == Found(parse(env[tok..tok + len])) + Entries(parse, env[save..])
  {
    FirstEntry(parse, env[tok..]);
    assert env[tok..][..len] == env[tok..tok + len];
    assert tok + len < |env| ==> env[tok..][len + 1..] == env[save..];
    assert tok + len == |env| ==> env[save..] == "";
  }

  /** A token is the next entry that can parse, and the rest of the text holds the others. */
  lemma NextToken<T>(parse: string -> Option<T>, mem: seq<char>, env: string, from: nat, tok: int, save: nat)
    returns (token: string)
    requires parse("").None? && Tokenized(mem, env, from, tok, save)
    ensures tok < 0 ==> Entries(parse, env[from..]) == []
    ensures tok >= 0 ==>
      && Holds(mem, tok, token, save)
      && Entries(parse, env[from..]) == Found(parse(token)) + Entries(parse, env[save..])
  {
    token := "";
    if tok < 0 {
      SkipSeparators(parse, env, from, |env|);
      assert env[|env|..] == "";
      NoEntries(parse);
    } else {
      var len := IndexOf(env[tok..], ',');
      token := env[tok..tok + len];
      assert Holds(mem, tok, token, save);
      SkipSeparators(parse, env, from, tok);
      TokenIsEntry(parse, env, tok, len, save);
    }
  }

  /** strdup: a fresh copy with its terminating NUL. */
  method Strdup(env: string) returns (buf: array<char>)
    requires NUL !in env
    ensures fresh(buf) && Unread(buf[..], env, 0)
  {
    buf := new char[|env| + 1];
    forall i | 0 <= i < |env| {
      buf[i] := env[i];
    }
    buf[|env|] := NUL;
    assert buf[..] == env + [NUL];
  }

  /** The first `max` results, and everything beyond them untouched. */
  ghost predicate Filled<T>(out: seq<T>, was: seq<T>, n: nat, results: seq<T>, max: nat) {
    && n == (if |results| < max then |results| else max)
    && n <= |out| == |was|
    && out[..n] == results[..n]
    && out[n..] == was[n..]
  }

  /** What has been written so far, and what the rest of the text still holds. */
  ghost predicate Progress<T>(out: seq<T>, was: seq<T>, n: nat, results: seq<T>, pending: seq<T>) {
    n <= |out| == |was| && results == out[..n] + pending && out[n..] == was[n..]
  }

  lemma Store<T>(out: seq<T>, was: seq<T>, n: nat, results: seq<T>, first: T, rest: seq<T>)
    requires n < |out| && Progress(out, was, n, results, [first] + rest)
    ensures Progress(out[n := first], was, n + 1, results, rest)
  {
    assert out[n := first][..n + 1] == out[..n] + [first];
    assert out[n := first][n + 1..] == out[n..][1..];
    ConcatAssociates(out[..n], [first], rest);
  }

  lemma Skip<T>(out: seq<T>, was: seq<T>, n: nat, results: seq<T>, rest: seq<T>)
    requires Progress(out, was, n, results, [] + rest)
    ensures Progress(out, was, n, results, rest)
  {
    assert [] + rest == rest;
  }

  /** out[n++] = item, for an entry that converts. */
  method Put<T>(out: array<T>, n: nat, item: Option<T>, ghost was: seq<T>, ghost results: seq<T>, ghost rest: seq<T>)
    returns (next: nat)
    requires n < out.Length && Progress(out[..], was, n, results, Found(item) + rest)
    modifies out
    ensures next == if item.Some? then n + 1 else n
    ensures Progress(out[..], was, next, results, rest)
  {
    next := n;
    if item.Some? {
      Store(out[..], was, n, results, item.value, rest);
      out[n] := item.value;
      next := n + 1;
    } else {
      Skip(out[..], was, n, results, rest);
    }
  }

  /** The token at hand and the entries after it, or nothing once strtok_r has said so. */
  function Remaining<T>(parse: string -> Option<T>, tok: int, token: string, rest: string): seq<T> {
    if tok < 0 then [] else Found(parse(token)) + Entries(parse, rest)
  }

  /** `*slash = '\0'`, where the slash is the token's character `k`. */
  method Cut(buf: array<char>, tok: nat, k: nat, ghost token: string, ghost env: string, ghost save: nat)
    requires Holds(buf[..], tok, token, save) && Unread(buf[..], env, save) && k < |token|
    modifies buf
    ensures Holds(buf[..], tok, token[..k], save)
    ensures Holds(buf[..], tok + k + 1, token[k + 1..], save)
    ensures Unread(buf[..], env, save)
  {
    CutToken(buf[..], tok, token, save, k);
    ghost var before := buf[..];
    buf[tok + k] := NUL;
    assert buf[..] == before[tok + k := NUL] && buf[..][save..] == before[save..];
  }

  /** inet_pton on the C string at `tok`. */
  method ConvertServer(mem: seq<char>, tok: nat, ghost token: string, ghost save: nat)
    returns (server: Option<Ipv4>)
    requires Holds(mem, tok, token, save)
    ensures server == InetPton(token)
  {
    CStringIs(mem, tok, token, save);
    server := InetPton(CString(mem, tok));
  }

  /** strtol on the C string at `at`, and the checks on what it returns. */
  method ConvertPrefix(mem: seq<char>, at: nat, ghost text: string, ghost save: nat)
    returns (prefix: Option<nat>)
    requires Holds(mem, at, text, save)
    ensures prefix == ParsePrefix(text)
  {
    CStringIs(mem, at, text, save);
    SaturationIsHarmless(text);
    var digits := CString(mem, at);
    var r := Strtol(digits);
    if r.end == 0 || r.end < |digits| || r.value < 0 || r.value > 32 {
      return None;
    }
    return Some(r.value);
  }

  /** The address before the NUL that has replaced the slash, and the prefix after it. */
  method ConvertHalves(mem: seq<char>, tok: nat, k: nat, ghost token: string, ghost save: nat)
    returns (route: Option<Route>)
    requires k == IndexOf(token, '/') < |token|
    requires Holds(mem, tok, token[..k], save) && Holds(mem, tok + k + 1, token[k + 1..], save)
    ensures route == ParseRoute(token)
  {
    ghost var address, length := token[..k], token[k + 1..];
    assert ParseRoute(token) == MakeRoute(InetPton(address), ParsePrefix(length));
    var network := ConvertServer(mem, tok, address, save);
    if network.None? {
      return None;
    }
    var prefix := ConvertPrefix(mem, tok + k + 1, length, save);
    route := MakeRoute(network, prefix);
  }

  /**
   * The body of the route loop up to storing: split the token at its slash by writing a NUL
   * there, and convert both halves.
   */
  method ConvertRoute(buf: array<char>, tok: nat, ghost token: string, ghost env: string, ghost save: nat)
    returns (route: Option<Route>)
    requires Holds(buf[..], tok, token, save) && Unread(buf[..], env, save)
    modifies buf
    ensures route == ParseRoute(token) && Unread(buf[..], env, save)
  {
    CStringIs(buf[..], tok, token, save);
    var entry := CString(buf[..], tok);
    var k := IndexOf(entry, '/');
    if k == |entry| {
      return None;
    }
    Cut(buf, tok, k, token, env, save);
    route := ConvertHalves(buf[..], tok, k, token, save);
  }

  method ParseRoutes(env: Option<string>, out: array<Route>, max: int, allocates: bool) returns (n: nat)
    requires env.Some? ==> NUL !in env.value
    requires max <= out.Length
    modifies out
    ensures env.None? || max <= 0 || !allocates ==> n == 0 && out[..] == old(out[..])
    ensures env.Some? && max > 0 && allocates ==> Filled(out[..], old(out[..]), n, Routes(env.value), max)
  {
    n := 0;
    EmptyEntry();
    NoEntries(ParseRoute);
    if env.None? || env.value == "" || max <= 0 {
      return;
    }
    if !allocates {
      return;
    }
    ghost var text, was := env.value, out[..];
    var buf := Strdup(env.value);
    var tok, save := StrtokR(buf, 0, text);
    ghost var token := NextToken(ParseRoute, buf[..], text, 0, tok, save);
    assert text[0..] == text;
    while tok >= 0 && n < max
      invariant n <= max && Unread(buf[..], text, save)
      invariant tok >= 0 ==> Holds(buf[..], tok, token, save)
      invariant Progress(out[..], was, n, Routes(text), Remaining(ParseRoute, tok, token, text[save..]))
      decreases |text| - save, tok
    {
      var route := ConvertRoute(buf, tok, token, text, save);
      n := Put(out, n, route, was, Routes(text), Routes(text[save..]));
      ghost var from := save;
      tok, save := StrtokR(buf, save, text);
      token := NextToken(ParseRoute, buf[..], text, from, tok, save);
    }
  }

  method ParseDns(env: Option<string>, out: array<Ipv4>, max: int, allocates: bool) returns (n: nat)
    requires env.Some? ==> NUL !in env.value
    requires max <= out.Length
    modifies out
    ensures env.None? || max <= 0 || !allocates ==> n == 0 && out[..] == old(out[..])
    ensures env.Some? && max > 0 && allocates ==> Filled(out[..], old(out[..]), n, Servers(env.value), max)
  {
    n := 0;
    EmptyEntry();
    NoEntries(InetPton);
    if env.None? || env.value == "" || max <= 0 {
      return;
    }
    if !allocates {
      return;
    }
    ghost var text, was := env.value, out[..];
    var buf := Strdup(env.value);
    var tok, save := StrtokR(buf, 0, text);
    ghost var token := NextToken(InetPton, buf[..], text, 0, tok, save);
    assert text[0..] == text;
    while tok >= 0 && n < max
      invariant n <= max && Unread(buf[..], text, save)
      invariant tok >= 0 ==> Holds(buf[..], tok, token, save)
      invariant Progress(out[..], was, n, Servers(text), Remaining(InetPton, tok, token, text[save..]))
      decreases |text| - save, tok
    {
      var server := ConvertServer(buf[..], tok, token, save);
      n := Put(out, n, server, was, Servers(text), Servers(text[save..]));
      ghost var from := save;
      tok, save := StrtokR(buf, save, text);
      token := NextToken(InetPton, buf[..], text, from, tok, save);
    }
  }
}
