/** Key prefixes on a Redis Cluster: what is accepted, what is built and which hash slot it routes to.
  *
  * `RedisTag` follows "Hash tags" in the Redis Cluster Specification and is independent of the code.
  */
module HashTags {
  import opened Options

  datatype PrefixError = EmptyPrefix | GlobPrefix | BadTag | BadQueue | Mistagged(key: string)

  datatype Result = Ok(prefix: string) | Err(error: PrefixError)

  // ----- Strings -----

  /** The position of the first brace, or the length. */
  function FirstBrace(s: string): (k: nat)
    ensures k <= |s| && (k < |s| ==> s[k] == '{' || s[k] == '}')
    ensures forall i :: 0 <= i < k ==> s[i] != '{' && s[i] != '}'
  {
    if s == [] || s[0] == '{' || s[0] == '}' then 0 else 1 + FirstBrace(s[1..])
  }

  function First(s: string, c: char): (k: nat)
    ensures k <= |s| && (k < |s| ==> s[k] == c) && forall i :: 0 <= i < k ==> s[i] != c
  {
    if s == [] || s[0] == c then 0 else 1 + First(s[1..], c)
  }

  predicate NoBraces(s: string) { forall i :: 0 <= i < |s| ==> s[i] != '{' && s[i] != '}' }

  /** White space as `trim` sees it. */
  predicate IsSpace(c: char) {
    || ('\t' <= c <= '\r') || c == ' ' || c == '\U{00A0}' || c == '\U{1680}' || ('\U{2000}' <= c <= '\U{200A}')
    || c == '\U{2028}' || c == '\U{2029}' || c == '\U{202F}' || c == '\U{205F}' || c == '\U{3000}' || c == '\U{FEFF}'
  }

  /** `!s.trim()` */
  predicate Blank(s: string) { forall i :: 0 <= i < |s| ==> IsSpace(s[i]) }

  predicate HasGlob(s: string) { '*' in s || '?' in s || '[' in s || ']' in s || '\\' in s }

  // ----- The tags -----

  /** The tag by the specification: between the first "{" and the first "}" after it, if not empty. */
  function RedisTag(key: string): Option<string> {
    var open := First(key, '{');
    if open == |key| then None
    else
      var rest := key[open + 1..];
      var close := First(rest, '}');
      if close == |rest| || close == 0 then None else Some(rest[..close])
  }

  /** The tag by the code: the leftmost match of `\{([^{}]+)\}`. */
  function EffectiveTag(key: string): (tag: Option<string>)
    ensures tag.Some? ==> tag.value != [] && NoBraces(tag.value)
  {
    if key == [] then None
    else if key[0] == '{' && MatchesHere(key) then Some(key[1..][..FirstBrace(key[1..])])
    else EffectiveTag(key[1..])
  }

  predicate MatchesHere(key: string)
    requires key != []
  {
    var rest := key[1..];
    var k := FirstBrace(rest);
    0 < k < |rest| && rest[k] == '}'
  }

  /** `^[^{}]*\{[^{}]+\}[^{}]*$` */
  predicate OneTag(s: string) {
    var k := FirstBrace(s);
    k < |s| && s[k] == '{' && MatchesHere(s[k..]) && NoBraces(s[k + 1..][FirstBrace(s[k + 1..]) + 1..])
  }

  // ----- The checks and the two prefixes -----

  function Usable(prefix: string, clustered: bool): Option<PrefixError> {
    if Blank(prefix) then Some(EmptyPrefix)
    else if HasGlob(prefix) then Some(GlobPrefix)
    else if clustered && !NoBraces(prefix) && !OneTag(prefix) then Some(BadTag)
    else None
  }

  function Tagged(key: string, expected: string): Result {
    if EffectiveTag(key) == Some(expected) then Ok(key) else Err(Mistagged(key))
  }

  /** The prefix of the package's own keys. */
  function ResolvePrefix(prefix: string, clustered: bool): Result {
    var refused := Usable(prefix, clustered);
    if refused.Some? then Err(refused.value)
    else if !clustered then Ok(prefix)
    else if EffectiveTag(prefix).Some? then Ok(prefix)
    else Tagged("{" + prefix + "}", prefix)
  }

  predicate UsableQueue(queue: string) { !Blank(queue) && !HasGlob(queue) && NoBraces(queue) }

  /** The prefix BullMQ stores one queue under. */
  function QueuePrefix(prefix: string, clustered: bool, queue: string): Result {
    var refused := Usable(prefix, clustered);
    if refused.Some? then Err(refused.value)
    else if !UsableQueue(queue) then Err(BadQueue)
    else if !clustered then Ok(prefix)
    else if EffectiveTag(prefix).Some? then Ok(prefix)
    else Tagged("{" + prefix + ":" + queue + "}", prefix + ":" + queue)
  }

  // ----- The two readings of a tag -----

  lemma {:induction false} FirstSkips(a: string, c: char, b: string)
    requires c !in a
    ensures First(a + [c] + b, c) == |a|
  {
    var s := a + [c] + b;
    var k := First(s, c);
    assert s[|a|] == c;
    assert forall i :: 0 <= i < |a| ==> s[i] == a[i];
  }

  lemma FirstBraceSkips(a: string, c: char, b: string)
    requires NoBraces(a) && (c == '{' || c == '}')
    ensures FirstBrace(a + [c] + b) == |a|
  {
    var s := a + [c] + b;
    var k := FirstBrace(s);
    assert s[|a|] == c;
    assert forall i :: 0 <= i < |a| ==> s[i] == a[i];
  }

  /** A key with one well-formed tag and no brace before it routes by that tag, whatever follows. */
  lemma RoutesBy(a: string, tag: string, b: string)
    requires NoBraces(a) && NoBraces(tag) && tag != []
    ensures RedisTag(a + "{" + tag + "}" + b) == Some(tag)
  {
    var key := a + "{" + tag + "}" + b;
    var rest := tag + "}" + b;
    assert key == a + ['{'] + rest;
    FirstSkips(a, '{', rest);
    assert key[|a| + 1..] == rest;
    FirstSkips(tag, '}', b);
    assert rest == tag + ['}'] + b;
    assert rest[..|tag|] == tag;
  }

  lemma {:induction false} EffectiveSkips(a: string, s: string)
    requires '{' !in a
    ensures EffectiveTag(a + s) == EffectiveTag(s)
  {
    if a == [] {
      assert a + s == s;
    } else {
      assert (a + s)[1..] == a[1..] + s;
      EffectiveSkips(a[1..], s);
    }
  }

  lemma EffectiveIs(a: string, tag: string, b: string)
    requires NoBraces(a) && NoBraces(tag) && tag != []
    ensures EffectiveTag(a + "{" + tag + "}" + b) == Some(tag)
  {
    var s := "{" + tag + "}" + b;
    assert a + "{" + tag + "}" + b == a + s;
    assert '{' !in a;
    EffectiveSkips(a, s);
    assert s[1..] == tag + ['}'] + b;
    FirstBraceSkips(tag, '}', b);
    assert s[1..][..|tag|] == tag;
  }

  lemma Cut(s: string, k: nat)
    requires k < |s|
    ensures s == s[..k] + [s[k]] + s[k + 1..]
  {
  }

  lemma OneTagSplits(s: string) returns (a: string, tag: string, b: string)
    requires OneTag(s)
    ensures s == a + "{" + tag + "}" + b && NoBraces(a) && NoBraces(tag) && NoBraces(b) && tag != []
  {
    var k := FirstBrace(s);
    assert s[k..][1..] == s[k + 1..];
    var rest := s[k + 1..];
    var m := FirstBrace(rest);
    a, tag, b := s[..k], rest[..m], rest[m + 1..];
    Cut(s, k);
    Cut(rest, m);
    Join(a, tag, b);
  }

  lemma Join(a: string, tag: string, b: string)
    ensures a + ['{'] + (tag + ['}'] + b) == a + "{" + tag + "}" + b
  {
  }

  lemma {:induction false} NoTag(s: string)
    requires NoBraces(s)
    ensures EffectiveTag(s) == None
  {
    if s != [] {
      assert NoBraces(s[1..]);
      NoTag(s[1..]);
    }
  }

  // ----- Accepted prefixes -----

  /** The tag the design intends: the author's own, or the one the package puts on. */
  function IntendedTag(prefix: string, own: string): string {
    match EffectiveTag(prefix)
    case Some(tag) => tag
    case None => own
  }

  predicate Accepted(prefix: string) {
    !Blank(prefix) && !HasGlob(prefix) && (NoBraces(prefix) || OneTag(prefix))
  }

  lemma BraceFreeJoin(a: string, b: string)
    requires NoBraces(a) && NoBraces(b)
    ensures NoBraces(a + ":" + b)
  {
  }

  lemma PutTag(tag: string, suffix: string)
    requires NoBraces(tag) && tag != []
    ensures Tagged("{" + tag + "}", tag) == Ok("{" + tag + "}")
    ensures RedisTag("{" + tag + "}" + suffix) == Some(tag)
  {
    EffectiveIs("", tag, "");
    assert "" + "{" + tag + "}" + "" == "{" + tag + "}";
    RoutesBy("", tag, suffix);
    assert "" + "{" + tag + "}" + suffix == "{" + tag + "}" + suffix;
  }

  lemma Regroup(a: string, tag: string, b: string, suffix: string)
    ensures a + "{" + tag + "}" + b + suffix == a + "{" + tag + "}" + (b + suffix)
  {
  }

  lemma KeepTag(prefix: string, suffix: string)
    requires OneTag(prefix)
    ensures EffectiveTag(prefix).Some? && RedisTag(prefix + suffix) == EffectiveTag(prefix)
  {
    var a, tag, b := OneTagSplits(prefix);
    EffectiveIs(a, tag, b);
    RoutesBy(a, tag, b + suffix);
    Regroup(a, tag, b, suffix);
  }

  /** On a cluster the package's own prefix is refused exactly when it is blank, has a glob character or
    * is not one clean tag; the last check never fires; and every key built on it, whatever its suffix,
    * routes by the one intended tag.
    */
  lemma OwnKeysShareOneTag(prefix: string, suffix: string)
    ensures ResolvePrefix(prefix, true).Ok? <==> Accepted(prefix)
    ensures !(ResolvePrefix(prefix, true).Err? && ResolvePrefix(prefix, true).error.Mistagged?)
    ensures ResolvePrefix(prefix, true).Ok? ==>
              RedisTag(ResolvePrefix(prefix, true).prefix + suffix) == Some(IntendedTag(prefix, prefix))
  {
    if Accepted(prefix) {
      if NoBraces(prefix) {
        NoTag(prefix);
        PutTag(prefix, suffix);
      } else {
        KeepTag(prefix, suffix);
      }
    }
  }

  /** The prefix of a queue, likewise: its keys route by the tag of that queue, or by the author's. */
  lemma QueueKeysShareOneTag(prefix: string, queue: string, suffix: string)
    ensures QueuePrefix(prefix, true, queue).Ok? <==> Accepted(prefix) && UsableQueue(queue)
    ensures !(QueuePrefix(prefix, true, queue).Err? && QueuePrefix(prefix, true, queue).error.Mistagged?)
    ensures QueuePrefix(prefix, true, queue).Ok? ==>
              RedisTag(QueuePrefix(prefix, true, queue).prefix + suffix)
                  == Some(IntendedTag(prefix, prefix + ":" + queue))
  {
    if Accepted(prefix) && UsableQueue(queue) {
      if NoBraces(prefix) {
        NoTag(prefix);
        BraceFreeJoin(prefix, queue);
        PutTag(prefix + ":" + queue, suffix);
        assert "{" + (prefix + ":" + queue) + "}" == "{" + prefix + ":" + queue + "}";
      } else {
        KeepTag(prefix, suffix);
      }
    }
  }

  /** Different queues route by different tags, and by other tags than the package's own keys, exactly
    * when the author supplied no tag.
    */
  lemma QueuesSpread(prefix: string, a: string, b: string, s: string, t: string, u: string)
    requires Accepted(prefix) && UsableQueue(a) && UsableQueue(b) && a != b
    ensures ResolvePrefix(prefix, true).Ok? && QueuePrefix(prefix, true, a).Ok? && QueuePrefix(prefix, true, b).Ok?
    ensures var own := RedisTag(ResolvePrefix(prefix, true).prefix + u);
            var first := RedisTag(QueuePrefix(prefix, true, a).prefix + s);
            var second := RedisTag(QueuePrefix(prefix, true, b).prefix + t);
            && (EffectiveTag(prefix).None? ==> first != second && own != first && own != second)
            && (EffectiveTag(prefix).Some? ==> first == second == own == EffectiveTag(prefix))
  {
    OwnKeysShareOneTag(prefix, u);
    QueueKeysShareOneTag(prefix, a, s);
    QueueKeysShareOneTag(prefix, b, t);
    var head := prefix + ":";
    assert (head + a)[|head|..] == a && (head + b)[|head|..] == b;
    assert |head + a| > |prefix| && |head + b| > |prefix|;
  }

  /** Off a cluster a prefix is left alone, braces and all. */
  lemma UnclusteredPrefix(prefix: string, queue: string)
    ensures ResolvePrefix(prefix, false).Ok? <==> !Blank(prefix) && !HasGlob(prefix)
    ensures QueuePrefix(prefix, false, queue).Ok? <==> ResolvePrefix(prefix, false).Ok? && UsableQueue(queue)
    ensures QueuePrefix(prefix, false, queue).Ok? ==> QueuePrefix(prefix, false, queue).prefix == prefix
  {
  }

  /** Why a stray "}" is refused: wrapped like any other prefix, it would route every queue by what comes
    * before it.
    */
  lemma StrayBraceCollapses(a: string, b: string, queue: string)
    requires NoBraces(a) && a != []
    ensures RedisTag("{" + (a + "}" + b) + ":" + queue + "}") == Some(a)
    ensures NoBraces(b) ==> !Accepted(a + "}" + b)
  {
    RoutesBy("", a, b + ":" + queue + "}");
    assert "{" + (a + "}" + b) + ":" + queue + "}" == "" + "{" + a + "}" + (b + ":" + queue + "}");
    var prefix := a + "}" + b;
    FirstBraceSkips(a, '}', b);
    assert prefix == a + ['}'] + b;
    assert prefix[|a|] == '}';
  }

  // ----- What is refused, and why -----

  /** What ECMAScript trims: white space, space separators (category Zs) and line terminators. */
  lemma SpaceIsTrimmed(c: char)
    ensures IsSpace(c) <==>
              || c in "\t\U{000B}\U{000C}\U{FEFF}"
              || c in " \U{00A0}\U{1680}\U{202F}\U{205F}\U{3000}" || '\U{2000}' <= c <= '\U{200A}'
              || c in "\n\r\U{2028}\U{2029}"
  {
  }

  lemma GlobIs(s: string)
    ensures HasGlob(s) <==> exists i :: 0 <= i < |s| && s[i] in "*?[]\\"
  {
    if i :| 0 <= i < |s| && s[i] in "*?[]\\" {
      assert s[i] in s;
    }
  }

  /** One clean tag: text without braces around a pair of them with something between. */
  ghost predicate Splits(s: string, a: string, tag: string, b: string) {
    && s == a + "{" + tag + "}" + b && tag != []
    && '{' !in a && '}' !in a && '{' !in tag && '}' !in tag && '{' !in b && '}' !in b
  }

  lemma BehindBrace(s: string, a: string, c: char, rest: string)
    requires s == a + [c] + rest && '{' !in a && '}' !in a && (c == '{' || c == '}')
    ensures FirstBrace(s) == |a| && s[|a|] == c && s[|a| + 1..] == rest
  {
    FirstBraceSkips(a, c, rest);
  }

  lemma SplitIsOneTag(s: string, a: string, tag: string, b: string)
    requires Splits(s, a, tag, b)
    ensures OneTag(s)
  {
    var rest := tag + ['}'] + b;
    Join(a, tag, b);
    BehindBrace(s, a, '{', rest);
    BehindBrace(rest, tag, '}', b);
    assert s[|a|..][1..] == s[|a| + 1..];
  }

  lemma OneTagIs(s: string)
    ensures OneTag(s) <==> exists a, tag, b :: Splits(s, a, tag, b)
  {
    if OneTag(s) {
      var a, tag, b := OneTagSplits(s);
      assert Splits(s, a, tag, b);
    }
    if a, tag, b :| Splits(s, a, tag, b) {
      SplitIsOneTag(s, a, tag, b);
    }
  }

  /** What is wrong with a prefix, the first reason counting; only a cluster minds braces. */
  lemma PrefixRefused(prefix: string, clustered: bool)
    ensures var blank := forall i :: 0 <= i < |prefix| ==> IsSpace(prefix[i]);
            var glob := exists i :: 0 <= i < |prefix| && prefix[i] in "*?[]\\";
            var braced := '{' in prefix || '}' in prefix;
            var split := exists a, tag, b :: Splits(prefix, a, tag, b);
            var r := ResolvePrefix(prefix, clustered);
            && (r == Err(EmptyPrefix) <==> blank)
            && (r == Err(GlobPrefix) <==> !blank && glob)
            && (r == Err(BadTag) <==> !blank && !glob && clustered && braced && !split)
            && (r.Ok? <==> !blank && !glob && (clustered && braced ==> split))
  {
    GlobIs(prefix);
    OneTagIs(prefix);
    OwnKeysShareOneTag(prefix, "");
  }

  /** And with a queue: whatever is wrong with the prefix, and then its own name. */
  lemma QueueRefused(prefix: string, clustered: bool, queue: string)
    ensures var blank := forall i :: 0 <= i < |queue| ==> IsSpace(queue[i]);
            var glob := exists i :: 0 <= i < |queue| && queue[i] in "*?[]\\";
            var braced := '{' in queue || '}' in queue;
            var own, r := ResolvePrefix(prefix, clustered), QueuePrefix(prefix, clustered, queue);
            && (own.Err? ==> r == own)
            && (own.Ok? ==>
                  && (r == Err(BadQueue) <==> blank || glob || braced)
                  && (r.Ok? <==> !blank && !glob && !braced))
  {
    GlobIs(queue);
    OwnKeysShareOneTag(prefix, "");
    QueueKeysShareOneTag(prefix, queue, "");
  }

  // ----- The code's reading is not the specification's in general -----

  /** A "{" and a "}" with something between them, none of it a brace. */
  ghost predicate PairAt(s: string, i: nat, j: nat) {
    i + 1 < j < |s| && s[i] == '{' && s[j] == '}' && NoBraces(s[i + 1..j])
  }

  ghost predicate HasPair(s: string) { exists i: nat, j: nat :: PairAt(s, i, j) }

  lemma PairHere(s: string, j: nat)
    requires s != [] && s[0] == '{'
    ensures PairAt(s, 0, j) <==> MatchesHere(s) && j == 1 + FirstBrace(s[1..])
  {
    var rest := s[1..];
    var k := FirstBrace(rest);
    if MatchesHere(s) && j == 1 + k {
      assert s[1..j] == rest[..k];
    }
    if PairAt(s, 0, j) {
      assert rest[j - 1] == '}';
      assert forall m :: 0 <= m < j - 1 ==> rest[m] == s[1..j][m];
    }
  }

  lemma PairBehind(s: string, i: nat, j: nat)
    requires s != [] && i > 0
    ensures PairAt(s, i, j) <==> j > 0 && PairAt(s[1..], i - 1, j - 1)
  {
    if j > 0 && i + 1 < j < |s| {
      assert s[1..][i..j - 1] == s[i + 1..j];
    }
  }

  ghost predicate Leftmost(s: string, i: nat, j: nat) {
    PairAt(s, i, j) && forall m: nat, n: nat :: PairAt(s, m, n) ==> i <= m
  }

  lemma LeftmostBehind(s: string, i: nat, j: nat)
    requires s != [] && Leftmost(s[1..], i, j) && forall k: nat :: !PairAt(s, 0, k)
    ensures Leftmost(s, i + 1, j + 1) && s[1..][i + 1..j] == s[i + 2..j + 1]
  {
    PairBehind(s, i + 1, j + 1);
    forall m: nat, n: nat | PairAt(s, m, n) ensures i + 1 <= m {
      if m > 0 {
        PairBehind(s, m, n);
      }
    }
  }

  lemma NoneBehind(s: string)
    requires s != [] && !HasPair(s[1..]) && forall k: nat :: !PairAt(s, 0, k)
    ensures !HasPair(s)
  {
    forall i: nat, j: nat ensures !PairAt(s, i, j) {
      if i > 0 {
        PairBehind(s, i, j);
      }
    }
  }

  /** What the code's tag is, in terms of the braces: the text of the leftmost pair, if there is one. */
  lemma {:induction false} EffectiveIsLeftmost(s: string)
    ensures EffectiveTag(s).None? ==> !HasPair(s)
    ensures EffectiveTag(s).Some? ==> exists i: nat, j: nat :: Leftmost(s, i, j) && EffectiveTag(s).value == s[i + 1..j]
  {
    if s == [] {
    } else if s[0] == '{' && MatchesHere(s) {
      var j := 1 + FirstBrace(s[1..]);
      PairHere(s, j);
      assert Leftmost(s, 0, j) && s[0 + 1..j] == s[1..][..j - 1];
    } else {
      EffectiveIsLeftmost(s[1..]);
      forall k: nat ensures !PairAt(s, 0, k) {
        if s[0] == '{' {
          PairHere(s, k);
        }
      }
      if EffectiveTag(s).Some? {
        var i: nat, j: nat :| Leftmost(s[1..], i, j) && EffectiveTag(s).value == s[1..][i + 1..j];
        LeftmostBehind(s, i, j);
        assert Leftmost(s, i + 1, j + 1) && EffectiveTag(s).value == s[(i + 1) + 1..j + 1];
      } else {
        NoneBehind(s);
      }
    }
  }

  /** Whether the code's tag of a key is the one Redis routes by. */
  ghost predicate ReadAlike(key: string) {
    var open := First(key, '{');
    open == |key| ||
    var rest := key[open + 1..];
    var close := First(rest, '}');
    close == |rest| || if close == 0 then !HasPair(rest[1..]) else '{' !in rest[..close]
  }

  lemma {:induction false} NoCloseNoTag(s: string)
    requires '}' !in s
    ensures EffectiveTag(s) == None
  {
    if s != [] {
      NoCloseNoTag(s[1..]);
    }
  }

  lemma PrefixFree(rest: string, close: nat)
    requires close == First(rest, '}') < |rest| && '{' !in rest[..close]
    ensures FirstBrace(rest) == close
  {
    assert forall i :: 0 <= i < close ==> rest[i] == rest[..close][i];
    assert rest[close] == '}';
  }

  /** The code's tag of a key that starts with "{", by the first "}" behind it. */
  lemma EffectiveAt(s: string, rest: string, close: nat)
    requires s != [] && s[0] == '{' && rest == s[1..] && close == First(rest, '}')
    ensures close == |rest| ==> EffectiveTag(s) == None
    ensures close == 0 < |rest| ==> EffectiveTag(s) == EffectiveTag(rest[1..])
    ensures 0 < close < |rest| && '{' !in rest[..close] ==> EffectiveTag(s) == Some(rest[..close])
    ensures '{' in rest[..close] ==> EffectiveTag(s) != Some(rest[..close])
  {
    if close == |rest| {
      NoCloseNoTag(rest);
      assert !MatchesHere(s);
    } else if close == 0 {
      assert FirstBrace(rest) == 0;
      assert EffectiveTag(s) == EffectiveTag(rest);
    } else if '{' !in rest[..close] {
      PrefixFree(rest, close);
    }
    if '{' in rest[..close] {
      assert !NoBraces(rest[..close]);
    }
  }

  /** The comment on `effectiveTag` says it is the tag Redis routes by. Exactly when: */
  lemma EffectiveIsRedis(key: string)
    ensures EffectiveTag(key) == RedisTag(key) <==> ReadAlike(key)
  {
    var open := First(key, '{');
    var before, s := key[..open], key[open..];
    assert '{' !in before;
    assert key == before + s;
    EffectiveSkips(before, s);
    if open < |key| {
      var rest := key[open + 1..];
      assert s[1..] == rest;
      EffectiveAt(s, rest, First(rest, '}'));
      if First(rest, '}') == 0 && rest != [] {
        EffectiveIsLeftmost(rest[1..]);
      }
    }
  }

  /** They differ: behind empty braces, where Redis hashes the whole key, the code still finds a tag. */
  lemma EmptyBracesDiffer(tag: string)
    requires NoBraces(tag) && tag != []
    ensures RedisTag("{}" + "{" + tag + "}") == None
    ensures EffectiveTag("{}" + "{" + tag + "}") == Some(tag)
  {
    var inner := "{" + tag + "}";
    var key := "{}" + inner;
    assert "{}" + "{" + tag + "}" == key;
    assert key[1..] == "}" + inner && ("}" + inner)[1..] == inner;
    assert First(key, '{') == 0;
    EffectiveAt(key, "}" + inner, 0);
    EffectiveIs("", tag, "");
    assert "" + "{" + tag + "}" + "" == inner;
  }

  /** And inside an unclosed brace, where Redis takes all of it. */
  lemma OpenBracesDiffer(a: string, b: string)
    requires NoBraces(a) && NoBraces(b) && b != []
    ensures RedisTag("{" + a + "{" + b + "}") == Some(a + "{" + b)
    ensures EffectiveTag("{" + a + "{" + b + "}") == Some(b)
  {
    var inner := "{" + b + "}";
    var key := "{" + a + "{" + b + "}";
    var rest := a + inner;
    assert key == "{" + rest && key[1..] == rest;
    assert rest == a + ['{'] + (b + "}");
    FirstBraceSkips(a, '{', b + "}");
    EffectiveSkips(a, inner);
    EffectiveIs("", b, "");
    assert "" + "{" + b + "}" + "" == inner;
    assert rest == (a + "{" + b) + ['}'] + "";
    FirstSkips(a + "{" + b, '}', "");
    assert rest[..|a + "{" + b|] == a + "{" + b;
  }
}
