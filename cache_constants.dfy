/**
 * Cache key templates, cache lifetimes and CacheConstants.formatKey.
 *
 * formatKey replaces the placeholders "{}" of a template one parameter at a
 * time with String.replaceFirst("\\{\\}", param). That call treats its
 * second argument as a regular-expression replacement string, so a '\' in a
 * parameter escapes the next character and a '$' is a group reference; the
 * model keeps those rules and lets an invalid replacement end in None, the
 * IllegalArgumentException Java throws.
 */
module CacheConstants {
  import opened Wrappers
  import opened Text

  // ---------------------------------------------------------------------
  // Templates

  const MINI_APP_ACCESS_TOKEN_KEY := "mini_app:access_token:{}"
  const APP_INFO_KEY := "app:info:{}"
  const USER_INFO_KEY := "user:info:{}"
  const USER_SESSION_KEY := "user:session:{}"
  const USER_TOKEN_KEY := "user:token:{}:{}"
  const TOKEN_USER_KEY := "token:user:{}"
  const USER_APP_KEY := "user:app:{}:{}"
  const WECHAT_SESSION_KEY := "wechat:session:{}:{}"
  const WECHAT_CODE_KEY := "wechat:code:{}:{}"
  const QR_TOKEN_KEY := "qr:token:{}"

  // ---------------------------------------------------------------------
  // Lifetimes, in seconds

  const MINI_APP_ACCESS_TOKEN_EXPIRE: int := 110 * 60
  const APP_INFO_EXPIRE: int := 7 * 24 * 60 * 60
  const USER_INFO_EXPIRE: int := 60 * 60
  const USER_SESSION_EXPIRE: int := 2 * 60 * 60
  const USER_APP_EXPIRE: int := 30 * 60
  const WECHAT_SESSION_EXPIRE: int := 5 * 60
  const QR_TOKEN_EXPIRE: int := 5 * 60

  // ---------------------------------------------------------------------
  // replaceFirst("\\{\\}", replacement)

  /** Index of the first "{}" in s. */
  function FindPlaceholder(s: string): (r: Option<nat>)
    ensures r.Some? ==> r.value + 2 <= |s| && s[r.value] == '{' && s[r.value + 1] == '}'
  {
    if |s| < 2 then None
    else if s[0] == '{' && s[1] == '}' then Some(0)
    else match FindPlaceholder(s[1..])
      case None => None
      case Some(i) => Some(i + 1)
  }

  function SkipZeros(s: string): (r: string)
    ensures |r| <= |s|
  {
    if s != [] && s[0] == '0' then SkipZeros(s[1..]) else s
  }

  /** The text that replaces the match, following Matcher.appendReplacement
      for a pattern with no capturing group: "\c" is c; "$0", with any further
      zeros it absorbs, is group 0, the matched "{}"; a trailing '\' or '$',
      "${name}", "$1".."$9" or '$' before a non-digit throws (None). */
  function Expand(rep: string): Option<string>
    decreases |rep|
  {
    if rep == [] then Some("")
    else if rep[0] == '\\' then
      if |rep| == 1 then None
      else match Expand(rep[2..])
        case None => None
        case Some(t) => Some([rep[1]] + t)
    else if rep[0] == '$' then
      if |rep| >= 2 && rep[1] == '0' then
        match Expand(SkipZeros(rep[2..]))
        case None => None
        case Some(t) => Some("{}" + t)
      else None
    else match Expand(rep[1..])
      case None => None
      case Some(t) => Some([rep[0]] + t)
  }

  /** A parameter in which replaceFirst sees no escape and no group reference. */
  predicate Plain(s: string) {
    '$' !in s && '\\' !in s
  }

  lemma {:induction false} ExpandPlain(s: string)
    requires Plain(s)
    ensures Expand(s) == Some(s)
  {
    if s != [] {
      ExpandPlain(s[1..]);
      assert [s[0]] + s[1..] == s;
    }
  }

  /** String.replaceFirst("\\{\\}", rep). Without a match the string comes back
      unchanged and rep is never read. */
  function ReplaceFirst(s: string, rep: string): Option<string>
  {
    match FindPlaceholder(s)
    case None => Some(s)
    case Some(i) =>
      match Expand(rep)
      case None => None
      case Some(e) => Some(s[..i] + e + s[i + 2..])
  }

  /** Replacing a placeholder preceded by brace-free text with a plain parameter. */
  lemma ReplaceAt(head: string, rest: string, x: string)
    requires NoOpenBrace(head) && Plain(x)
    ensures ReplaceFirst(head + "{}" + rest, x) == Some(head + x + rest)
  {
    var s := head + "{}" + rest;
    assert s == head + ("{}" + rest);
    FindPlaceholderAfter(head, "{}" + rest);
    assert FindPlaceholder("{}" + rest) == Some(0);
    ExpandPlain(x);
    assert s[..|head|] == head;
    assert s[|head| + 2..] == rest;
  }

  /** Text before which no placeholder can start. */
  predicate NoOpenBrace(s: string) {
    '{' !in s
  }

  function ShiftBy(o: Option<nat>, n: nat): Option<nat> {
    match o
    case None => None
    case Some(i) => Some(i + n)
  }

  lemma {:induction false} FindPlaceholderAfter(a: string, b: string)
    requires NoOpenBrace(a)
    ensures FindPlaceholder(a + b) == ShiftBy(FindPlaceholder(b), |a|)
  {
    if a == [] {
      assert a + b == b;
      match FindPlaceholder(b)
      case None =>
      case Some(i) =>
    } else {
      var s := a + b;
      assert s[0] == a[0] && a[0] in a;
      assert s[1..] == a[1..] + b;
      FindPlaceholderAfter(a[1..], b);
      if |s| < 2 {
        assert b == [];
      } else {
        match FindPlaceholder(b)
        case None =>
        case Some(i) =>
      }
    }
  }

  lemma NoPlaceholder(a: string)
    requires NoOpenBrace(a)
    ensures FindPlaceholder(a) == None
  {
    FindPlaceholderAfter(a, "");
    assert a + "" == a;
  }

  // ---------------------------------------------------------------------
  // formatKey

  /** What formatKey(template, params...) returns; None when it throws. */
  /** Each parameter goes through ReplaceFirst in turn. Once no "{}" is left
      the remaining calls return the text unchanged without reading their
      parameter, so the text is the result. */
  function FormatKeySpec(template: string, params: seq<string>): Option<string>
    decreases |params|
  {
    if params == [] then Some(template)
    else match FindPlaceholder(template)
      case None => Some(template)
      case Some(i) =>
        match Expand(params[0])
        case None => None
        case Some(e) => FormatKeySpec(template[..i] + e + template[i + 2..], params[1..])
  }

  /** CacheConstants.formatKey. Each parameter is String.valueOf of the
      argument, so a null argument arrives here as "null". */
  method FormatKey(template: string, params: seq<string>) returns (r: Option<string>)
    ensures r == FormatKeySpec(template, params)
  {
    var result := template;
    var i := 0;
    while i < |params|
      invariant 0 <= i <= |params|
      invariant FormatKeySpec(template, params) == FormatKeySpec(result, params[i..])
    {
      assert params[i..][1..] == params[i + 1..];
      var next := ReplaceFirst(result, params[i]);
      if next.None? {
        return None;
      }
      result := next.value;
      i := i + 1;
    }
    return Some(result);
  }

  /** formatKey never throws on parameters free of '$' and '\'. */
  lemma {:induction false} FormatKeyPlain(template: string, params: seq<string>)
    requires forall k :: 0 <= k < |params| ==> Plain(params[k])
    ensures FormatKeySpec(template, params).Some?
    decreases |params|
  {
    if params != [] {
      ExpandPlain(params[0]);
      var next := ReplaceFirst(template, params[0]);
      FormatKeyPlain(next.value, params[1..]);
    }
  }

  /** The key formatKey builds from parameters it accepts. */
  function Key(template: string, params: seq<string>): (k: string)
    requires forall i :: 0 <= i < |params| ==> Plain(params[i])
    ensures FormatKeySpec(template, params) == Some(k)
  {
    FormatKeyPlain(template, params);
    FormatKeySpec(template, params).value
  }

  /** With no parameters the template comes back unchanged. */
  lemma FormatKeyNoParams(template: string)
    ensures FormatKeySpec(template, []) == Some(template)
  {
  }

  // ---------------------------------------------------------------------
  // Left-to-right filling

  /** A template given by the literal text around its placeholders. */
  function Join(chunks: seq<string>): string
    requires |chunks| >= 1
  {
    if |chunks| == 1 then chunks[0] else chunks[0] + "{}" + Join(chunks[1..])
  }

  /** The template with its first |params| placeholders filled in order:
      parameters beyond the placeholders are ignored, placeholders beyond
      the parameters stay as they are. */
  function Fill(chunks: seq<string>, params: seq<string>): string
    requires |chunks| >= 1
  {
    if |chunks| == 1 then chunks[0]
    else if params == [] then Join(chunks)
    else chunks[0] + params[0] + Fill(chunks[1..], params[1..])
  }

  /** One step of formatKey: a replacement that succeeds hands on its result. */
  lemma FormatKeyStep(t: string, params: seq<string>, next: string)
    requires params != [] && ReplaceFirst(t, params[0]) == Some(next)
    ensures FormatKeySpec(t, params) == FormatKeySpec(next, params[1..])
  {
  }

  /** Filling the first placeholder, behind brace-free text, with a plain
      parameter hands the rest of the parameters on. */
  lemma FillAt(head: string, tail: string, params: seq<string>)
    requires NoOpenBrace(head) && params != [] && Plain(params[0])
    ensures FormatKeySpec(head + "{}" + tail, params) == FormatKeySpec(head + params[0] + tail, params[1..])
  {
    ReplaceAt(head, tail, params[0]);
    FormatKeyStep(head + "{}" + tail, params, head + params[0] + tail);
  }

  lemma {:induction false} FillFrom(done: string, chunks: seq<string>, params: seq<string>)
    requires |chunks| >= 1 && NoOpenBrace(done)
    requires forall k :: 0 <= k < |chunks| ==> NoOpenBrace(chunks[k])
    requires forall k :: 0 <= k < |params| ==> Plain(params[k]) && NoOpenBrace(params[k])
    ensures FormatKeySpec(done + Join(chunks), params) == Some(done + Fill(chunks, params))
    decreases |params|
  {
    if params == [] {
    } else if |chunks| == 1 {
      var s := done + chunks[0];
      NoPlaceholder(s);
      FormatKeyStep(s, params, s);
      FillFrom(done, chunks, params[1..]);
    } else {
      FillFromPlaceholder(done, chunks, params);
    }
  }

  lemma {:induction false} FillFromPlaceholder(done: string, chunks: seq<string>, params: seq<string>)
    requires |chunks| >= 2 && NoOpenBrace(done) && params != []
    requires forall k :: 0 <= k < |chunks| ==> NoOpenBrace(chunks[k])
    requires forall k :: 0 <= k < |params| ==> Plain(params[k]) && NoOpenBrace(params[k])
    ensures FormatKeySpec(done + Join(chunks), params) == Some(done + Fill(chunks, params))
    decreases |params|, 0
  {
    var head := done + chunks[0];
    var tail := Join(chunks[1..]);
    var done' := head + params[0];
    JoinFirst(done, chunks);
    FillAt(head, tail, params);
    NoOpenBraceJoin(done, chunks[0], params[0]);
    FillFrom(done', chunks[1..], params[1..]);
    FillFirst(done, chunks, params);
  }

  lemma JoinFirst(done: string, chunks: seq<string>)
    requires |chunks| >= 2
    ensures done + Join(chunks) == (done + chunks[0]) + "{}" + Join(chunks[1..])
  {
  }

  lemma FillFirst(done: string, chunks: seq<string>, params: seq<string>)
    requires |chunks| >= 2 && params != []
    ensures (done + chunks[0] + params[0]) + Fill(chunks[1..], params[1..]) == done + Fill(chunks, params)
  {
  }

  lemma NoOpenBraceJoin(a: string, b: string, c: string)
    requires NoOpenBrace(a) && NoOpenBrace(b) && NoOpenBrace(c)
    ensures NoOpenBrace(a + b + c)
  {
  }

  /** formatKey fills the placeholders left to right, one parameter each,
      when neither the template's literal text nor the parameters hold a
      '{' and the parameters hold no '$' or '\'. */
  lemma FormatKeyFills(chunks: seq<string>, params: seq<string>)
    requires |chunks| >= 1
    requires forall k :: 0 <= k < |chunks| ==> NoOpenBrace(chunks[k])
    requires forall k :: 0 <= k < |params| ==> Plain(params[k]) && NoOpenBrace(params[k])
    ensures FormatKeySpec(Join(chunks), params) == Some(Fill(chunks, params))
  {
    FillFrom("", chunks, params);
    assert "" + Join(chunks) == Join(chunks);
    assert "" + Fill(chunks, params) == Fill(chunks, params);
  }

  /** A parameter holding "{}" is itself the target of the next replacement:
      the second parameter lands inside the first and the template's own
      second placeholder is left unfilled. */
  lemma FormatKeyParamWithPlaceholder(x: string, y: string)
    requires Plain(x) && NoOpenBrace(x) && Plain(y)
    ensures FormatKeySpec("{}:{}", [x + "{}", y]) == Some(x + y + ":{}")
  {
    var params := [x + "{}", y];
    assert "{}:{}" == "" + "{}" + ":{}";
    FillAt("", ":{}", params);
    assert "" + params[0] + ":{}" == x + "{}" + ":{}";
    FillAt(x, ":{}", params[1..]);
    assert params[1..][1..] == [];
  }

  /** A '$' in a parameter that reaches a placeholder makes formatKey throw,
      while one that arrives after the last placeholder is never read. */
  lemma FormatKeyDollar(p: string)
    requires NoOpenBrace(p)
    ensures FormatKeySpec(p + "{}", ["a$b"]) == None
    ensures FormatKeySpec(p + "{}", ["q", "$"]) == Some(p + "q")
  {
    assert p + "{}" == p + "{}" + "";
    FindPlaceholderAfter(p, "{}");
    assert FindPlaceholder("{}") == Some(0);
    assert "a$b"[1..] == "$b";
    assert Expand("$b") == None;
    assert Expand("a$b") == None;
    ReplaceAt(p, "", "q");
    assert p + "q" + "" == p + "q";
    NoPlaceholder(p + "q");
    assert ["q", "$"][1..] == ["$"];
    assert ["$"][1..] == [];
  }

  // ---------------------------------------------------------------------
  // Kinds of key

  datatype KeyKind =
    | MiniAppAccessToken | AppInfo | UserInfo | UserSession | UserToken
    | TokenUser | UserApp | WechatSession | WechatCode | QrToken

  function Template(k: KeyKind): string {
    match k
    case MiniAppAccessToken => MINI_APP_ACCESS_TOKEN_KEY
    case AppInfo => APP_INFO_KEY
    case UserInfo => USER_INFO_KEY
    case UserSession => USER_SESSION_KEY
    case UserToken => USER_TOKEN_KEY
    case TokenUser => TOKEN_USER_KEY
    case UserApp => USER_APP_KEY
    case WechatSession => WECHAT_SESSION_KEY
    case WechatCode => WECHAT_CODE_KEY
    case QrToken => QR_TOKEN_KEY
  }

  /** Kinds whose template has two placeholders, "{}:{}". */
  predicate TwoPlaceholders(k: KeyKind) {
    k.UserToken? || k.UserApp? || k.WechatSession? || k.WechatCode?
  }

  /** The literal text of a template before its first placeholder. */
  function Prefix(k: KeyKind): (p: string)
    ensures NoOpenBrace(p) && |p| >= 9
    ensures Template(k) == p + (if TwoPlaceholders(k) then "{}:{}" else "{}")
  {
    match k
    case MiniAppAccessToken => "mini_app:access_token:"
    case AppInfo => "app:info:"
    case UserInfo => "user:info:"
    case UserSession => "user:session:"
    case UserToken => "user:token:"
    case TokenUser => "token:user:"
    case UserApp => "user:app:"
    case WechatSession => "wechat:session:"
    case WechatCode => "wechat:code:"
    case QrToken => "qr:token:"
  }

  /** Characters that tell the prefixes apart: the first one, and the
      first letter of the second word for the "user:" and "wechat:" families. */
  function Tag(p: string): (char, char)
    requires |p| >= 8
  {
    (p[0], if p[0] == 'u' then p[5] else if p[0] == 'w' then p[7] else ' ')
  }

  lemma TagsDiffer(k1: KeyKind, k2: KeyKind)
    requires k1 != k2
    ensures Tag(Prefix(k1)) != Tag(Prefix(k2))
  {
  }

  lemma StartsWithSameTag(p: string, q: string)
    requires |q| >= 8 && StartsWith(p, q)
    ensures Tag(p) == Tag(q)
  {
    assert p[0] == q[0] && p[5] == q[5] && p[7] == q[7] by {
      assert p[..|q|][0] == p[0] && p[..|q|][5] == p[5] && p[..|q|][7] == p[7];
    }
  }

  /** No kind's prefix is a prefix of another kind's. */
  lemma PrefixesDistinct(k1: KeyKind, k2: KeyKind)
    requires k1 != k2
    ensures !StartsWith(Prefix(k1), Prefix(k2))
  {
    TagsDiffer(k1, k2);
    if StartsWith(Prefix(k1), Prefix(k2)) {
      StartsWithSameTag(Prefix(k1), Prefix(k2));
    }
  }

  lemma {:induction false} FormatKeyKeepsPrefix(p: string, rest: string, params: seq<string>)
    requires NoOpenBrace(p)
    ensures FormatKeySpec(p + rest, params).Some? ==> StartsWith(FormatKeySpec(p + rest, params).value, p)
    decreases |params|
  {
    if params != [] {
      FindPlaceholderAfter(p, rest);
      match ReplaceFirst(p + rest, params[0])
      case None =>
      case Some(next) =>
        assert next[..|p|] == p;
        assert next == p + next[|p|..];
        FormatKeyKeepsPrefix(p, next[|p|..], params[1..]);
    }
  }

  /** Every key of a kind starts with that kind's prefix. */
  lemma KeyStartsWithPrefix(k: KeyKind, params: seq<string>)
    ensures FormatKeySpec(Template(k), params).Some? ==>
      StartsWith(FormatKeySpec(Template(k), params).value, Prefix(k))
  {
    var p := Prefix(k);
    FormatKeyKeepsPrefix(p, Template(k)[|p|..], params);
    assert Template(k) == p + Template(k)[|p|..];
  }

  /** Keys of different kinds never coincide, whatever their parameters. */
  lemma KeysOfDifferentKindsDiffer(k1: KeyKind, k2: KeyKind, p1: seq<string>, p2: seq<string>)
    requires k1 != k2
    ensures FormatKeySpec(Template(k1), p1).Some? && FormatKeySpec(Template(k2), p2).Some? ==>
      FormatKeySpec(Template(k1), p1).value != FormatKeySpec(Template(k2), p2).value
  {
    KeyStartsWithPrefix(k1, p1);
    KeyStartsWithPrefix(k2, p2);
    PrefixesDistinct(k1, k2);
    PrefixesDistinct(k2, k1);
    if FormatKeySpec(Template(k1), p1).Some? && FormatKeySpec(Template(k2), p2).Some? {
      DistinctPrefixes(FormatKeySpec(Template(k1), p1).value, FormatKeySpec(Template(k2), p2).value,
        Prefix(k1), Prefix(k2));
    }
  }

  /** The cache lifetimes, in seconds. */
  lemma Lifetimes()
    ensures MINI_APP_ACCESS_TOKEN_EXPIRE == 6600
    ensures APP_INFO_EXPIRE == 604800
    ensures USER_INFO_EXPIRE == 3600
    ensures USER_SESSION_EXPIRE == 7200
    ensures USER_APP_EXPIRE == 1800
    ensures WECHAT_SESSION_EXPIRE == 300
    ensures QR_TOKEN_EXPIRE == 300
  {
  }

  // ---------------------------------------------------------------------
  // Keys with one or two placeholders, as the caches use them

  /** A one-placeholder key is the prefix followed by the parameter. */
  lemma KeyOne(k: KeyKind, a: string)
    requires !TwoPlaceholders(k) && Plain(a)
    ensures Key(Template(k), [a]) == Prefix(k) + a
  {
    var p := Prefix(k);
    assert Template(k) == p + "{}" + "";
    ReplaceAt(p, "", a);
    assert p + a + "" == p + a;
    FormatKeyStep(Template(k), [a], p + a);
    assert [a][1..] == [];
  }

  /** Filling "p{}:{}" with two plain parameters, the first free of '{'. */
  lemma FillTwo(p: string, a: string, b: string)
    requires NoOpenBrace(p) && Plain(a) && Plain(b) && NoOpenBrace(a)
    ensures FormatKeySpec(p + "{}:{}", [a, b]) == Some(p + a + ":" + b)
  {
    var t := p + "{}:{}";
    assert t == p + "{}" + ":{}";
    ReplaceAt(p, ":{}", a);
    var t1 := p + a + ":{}";
    FormatKeyStep(t, [a, b], t1);
    assert t1 == (p + a + ":") + "{}" + "";
    ReplaceAt(p + a + ":", "", b);
    assert p + a + ":" + b + "" == p + a + ":" + b;
    assert [a, b][1..] == [b];
    FormatKeyStep(t1, [b], p + a + ":" + b);
    assert [b][1..] == [];
  }

  /** One-placeholder keys tell their plain parameters apart. */
  lemma KeyOneInjective(k: KeyKind, a: string, b: string)
    requires !TwoPlaceholders(k) && Plain(a) && Plain(b)
    ensures Key(Template(k), [a]) == Key(Template(k), [b]) ==> a == b
  {
    KeyOne(k, a);
    KeyOne(k, b);
    var p := Prefix(k);
    assert a == (p + a)[|p|..];
    assert b == (p + b)[|p|..];
  }

  /** A two-placeholder key is prefix + a + ":" + b when a holds no '{'. */
  lemma KeyTwo(k: KeyKind, a: string, b: string)
    requires TwoPlaceholders(k) && Plain(a) && Plain(b) && NoOpenBrace(a)
    ensures Key(Template(k), [a, b]) == Prefix(k) + a + ":" + b
  {
    FillTwo(Prefix(k), a, b);
  }

  /** Position of the first c in s, |s| when there is none. */
  function IndexOf(s: string, c: char): (i: nat)
    ensures i <= |s|
  {
    if s == [] then 0 else if s[0] == c then 0 else 1 + IndexOf(s[1..], c)
  }

  lemma {:induction false} IndexOfAfter(a: string, b: string, c: char)
    requires c !in a
    ensures IndexOf(a + [c] + b, c) == |a|
  {
    if a != [] {
      assert a[0] in a;
      assert (a + [c] + b)[1..] == a[1..] + [c] + b;
      IndexOfAfter(a[1..], b, c);
    }
  }

  /** Splitting at the first ':' recovers both halves. */
  lemma ColonSplitUnique(a1: string, b1: string, a2: string, b2: string)
    requires ':' !in a1 && ':' !in a2
    requires a1 + ":" + b1 == a2 + ":" + b2
    ensures a1 == a2 && b1 == b2
  {
    var s := a1 + ":" + b1;
    IndexOfAfter(a1, b1, ':');
    IndexOfAfter(a2, b2, ':');
    assert a1 == s[..|a1|] == a2;
    assert b1 == s[|a1| + 1..] == b2;
  }

  /** Two-placeholder keys tell their parameter pairs apart when the first
      parameters hold no ':' (and no '{'). */
  lemma KeyTwoInjective(k: KeyKind, a1: string, b1: string, a2: string, b2: string)
    requires TwoPlaceholders(k)
    requires Plain(a1) && Plain(b1) && NoOpenBrace(a1) && ':' !in a1
    requires Plain(a2) && Plain(b2) && NoOpenBrace(a2) && ':' !in a2
    ensures Key(Template(k), [a1, b1]) == Key(Template(k), [a2, b2]) ==> a1 == a2 && b1 == b2
  {
    KeyTwo(k, a1, b1);
    KeyTwo(k, a2, b2);
    PrefixedColonSplitUnique(Prefix(k), a1, b1, a2, b2);
  }

  lemma PrefixedColonSplitUnique(p: string, a1: string, b1: string, a2: string, b2: string)
    requires ':' !in a1 && ':' !in a2
    ensures p + a1 + ":" + b1 == p + a2 + ":" + b2 ==> a1 == a2 && b1 == b2
  {
    var t1 := a1 + ":" + b1;
    var t2 := a2 + ":" + b2;
    assert p + a1 + ":" + b1 == p + t1;
    assert p + a2 + ":" + b2 == p + t2;
    assert t1 == (p + t1)[|p|..];
    assert t2 == (p + t2)[|p|..];
    if t1 == t2 {
      ColonSplitUnique(a1, b1, a2, b2);
    }
  }

  /** With a ':' in the first parameter two different pairs share a key. */
  lemma KeyTwoCollision(k: KeyKind)
    requires TwoPlaceholders(k)
    ensures Key(Template(k), ["x:y", "z"]) == Key(Template(k), ["x", "y:z"])
  {
    assert Plain("x:y") && Plain("z") && NoOpenBrace("x:y");
    assert Plain("x") && Plain("y:z") && NoOpenBrace("x");
    KeyTwo(k, "x:y", "z");
    KeyTwo(k, "x", "y:z");
    SameText(Prefix(k));
  }

  lemma SameText(p: string)
    ensures p + "x:y" + ":" + "z" == p + "x" + ":" + "y:z"
  {
    assert "x:y" + ":" + "z" == "x" + ":" + "y:z";
    assert p + "x:y" + ":" + "z" == p + ("x:y" + ":" + "z");
    assert p + "x" + ":" + "y:z" == p + ("x" + ":" + "y:z");
  }
}
