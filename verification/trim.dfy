/** The request-body trimming middleware: every string field of the body,
    except those named in the exception list (`password`), is replaced by its
    trimmed value, in place. */
module TrimMiddleware {

  /** A parsed request-body value. Numbers are modelled as integers. */
  datatype Value =
    | Str(s: string)
    | Num(n: int)
    | Bool(b: bool)
    | Null
    | List(items: seq<Value>)
    | Object(fields: map<string, Value>)

  /** The keys whose values are never trimmed. */
  const Exceptions: seq<string> := ["password"]

  /** The characters String.prototype.trim removes: the ECMAScript
      WhiteSpace and LineTerminator code points. */
  const WhitespaceChars: set<char> := {
    '\t', '\n', '\U{000B}', '\U{000C}', '\r', ' ', '\U{00A0}', '\U{1680}',
    '\U{2000}', '\U{2001}', '\U{2002}', '\U{2003}', '\U{2004}', '\U{2005}',
    '\U{2006}', '\U{2007}', '\U{2008}', '\U{2009}', '\U{200A}',
    '\U{2028}', '\U{2029}', '\U{202F}', '\U{205F}', '\U{3000}', '\U{FEFF}'
  }

  predicate IsWhitespace(c: char)
  {
    c in WhitespaceChars
  }

  /** Every character of `s` at positions `a` up to `b` is whitespace. */
  predicate WhitespaceBetween(s: string, a: nat, b: nat)
    requires a <= b <= |s|
  {
    forall k :: a <= k < b ==> IsWhitespace(s[k])
  }

  /** Neither the first nor the last character is whitespace. */
  predicate NoEdgeWhitespace(s: string)
  {
    s == [] || (!IsWhitespace(s[0]) && !IsWhitespace(s[|s| - 1]))
  }

  /** `s` without its leading whitespace. */
  function TrimStart(s: string): (r: string)
    ensures |r| <= |s| && r == s[|s| - |r|..]
    ensures WhitespaceBetween(s, 0, |s| - |r|)
    ensures r == [] || !IsWhitespace(r[0])
  {
    if |s| > 0 && IsWhitespace(s[0]) then
      var r := TrimStart(s[1..]);
      assert forall k :: 1 <= k < |s| - |r| ==> s[k] == s[1..][k - 1];
      r
    else s
  }

  /** `s` without its trailing whitespace. */
  function TrimEnd(s: string): (r: string)
    ensures |r| <= |s| && r == s[..|r|]
    ensures WhitespaceBetween(s, |r|, |s|)
    ensures r == [] || !IsWhitespace(r[|r| - 1])
  {
    if |s| > 0 && IsWhitespace(s[|s| - 1]) then
      var r := TrimEnd(s[..|s| - 1]);
      assert forall k :: |r| <= k < |s| - 1 ==> s[k] == s[..|s| - 1][k];
      r
    else s
  }

  /** The number of leading whitespace characters of `s`. */
  function Lead(s: string): (n: nat)
    ensures n <= |s|
  {
    |s| - |TrimStart(s)|
  }

  /** A prefix `r` of a suffix `t` of `s`, followed in `t` only by whitespace,
      is a slice of `s` followed in `s` only by whitespace. */
  lemma PrefixOfSuffix(s: string, t: string, r: string)
    requires |t| <= |s| && t == s[|s| - |t|..]
    requires |r| <= |t| && r == t[..|r|] && WhitespaceBetween(t, |r|, |t|)
    ensures r == s[|s| - |t|..|s| - |t| + |r|]
    ensures WhitespaceBetween(s, |s| - |t| + |r|, |s|)
  {
    var i := |s| - |t|;
    forall k | i + |r| <= k < |s| ensures IsWhitespace(s[k]) {
      assert s[k] == t[k - i];
    }
  }

  /** A non-empty prefix of `t` starts with `t`'s first character. */
  lemma KeepsFirst(t: string, r: string)
    requires |r| <= |t| && r == t[..|r|]
    requires t == [] || !IsWhitespace(t[0])
    ensures r == [] || !IsWhitespace(r[0])
  {
    if r != [] {
      assert r[0] == t[0];
    }
  }

  /** String.prototype.trim: the contiguous part of `s` that starts after
      its leading whitespace and leaves only whitespace after it. */
  function StringTrim(s: string): (r: string)
    ensures NoEdgeWhitespace(r)
    ensures Lead(s) + |r| <= |s| && r == s[Lead(s)..Lead(s) + |r|]
    ensures WhitespaceBetween(s, 0, Lead(s)) && WhitespaceBetween(s, Lead(s) + |r|, |s|)
  {
    var t := TrimStart(s);
    var r := TrimEnd(t);
    PrefixOfSuffix(s, t, r);
    KeepsFirst(t, r);
    r
  }

  /** The decomposition StringTrim finds is the only one: any split of `s`
      into whitespace, a part without edge whitespace, and whitespace gives
      that part. */
  lemma TrimUnique(s: string, i: nat, j: nat)
    requires i <= j <= |s|
    requires WhitespaceBetween(s, 0, i) && WhitespaceBetween(s, j, |s|)
    requires NoEdgeWhitespace(s[i..j])
    ensures StringTrim(s) == s[i..j]
  {
  }

  /** Trimming a trimmed string changes nothing. */
  lemma TrimIdempotent(s: string)
    ensures StringTrim(StringTrim(s)) == StringTrim(s)
  {
  }

  /** What the middleware does to one field. */
  function TrimField(key: string, v: Value): Value
  {
    if key !in Exceptions && v.Str? then Str(StringTrim(v.s)) else v
  }

  /** The body after the middleware: same keys, every string field outside
      the exception list trimmed, everything else as it was. */
  function TrimmedBody(body: map<string, Value>): (b: map<string, Value>)
    ensures b.Keys == body.Keys
    ensures "password" in body ==> b["password"] == body["password"]
    ensures forall k :: k in body && !body[k].Str? ==> b[k] == body[k]
    ensures forall k :: k in body && body[k].Str? && k !in Exceptions ==>
              b[k].Str? && b[k].s == StringTrim(body[k].s) && NoEdgeWhitespace(b[k].s)
  {
    map k | k in body :: TrimField(k, body[k])
  }

  /** Running the middleware twice leaves the body as running it once. */
  lemma TrimmedBodyIdempotent(body: map<string, Value>)
    ensures TrimmedBody(TrimmedBody(body)) == TrimmedBody(body)
  {
  }

  /** One iteration of the middleware's loop: only `key` can change. */
  function TrimKey(body: map<string, Value>, key: string): (b: map<string, Value>)
    requires key in body
    ensures b.Keys == body.Keys
    ensures b[key] == TrimField(key, body[key])
    ensures forall k :: k in body && k != key ==> b[k] == body[k]
  {
    body[key := TrimField(key, body[key])]
  }

  /** The order in which keys are processed does not matter. */
  lemma TrimKeysCommute(body: map<string, Value>, k1: string, k2: string)
    requires k1 in body && k2 in body
    ensures TrimKey(TrimKey(body, k1), k2) == TrimKey(TrimKey(body, k2), k1)
  {
  }

  /** An incoming request; the middleware rewrites its body in place. */
  class Request {
    var body: map<string, Value>

    constructor (initialBody: map<string, Value>)
      ensures body == initialBody
    {
      body := initialBody;
    }

    /** The `trim` middleware, visiting the body's keys one at a time. */
    method Trim()
      modifies this
      ensures body == TrimmedBody(old(body))
    {
      var pending := body.Keys;
      while pending != {}
        invariant pending <= body.Keys
        invariant body.Keys == old(body).Keys
        invariant forall k :: k in body && k !in pending ==> body[k] == TrimField(k, old(body)[k])
        invariant forall k :: k in pending ==> body[k] == old(body)[k]
        decreases pending
      {
        var key :| key in pending;
        body := TrimKey(body, key);
        pending := pending - {key};
      }
    }
  }
}
