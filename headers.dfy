/**
 * Hop-by-hop header removal in `httpRedirect` (server/server.go): the eight
 * names section 13.5.1 of RFC 2616 lists are deleted from the upstream
 * response's header map. `http.Header.Del` canonicalizes the name it is
 * given, so that canonical form is modelled too.
 */
module HopHeaders {
  import opened Base

  /** `hopHeaders`, in source order; "Te" is the canonical spelling of "TE". */
  const HopHeaderNames: seq<string> :=
    ["Connection", "Keep-Alive", "Proxy-Authenticate", "Proxy-Authorization",
     "Te", "Trailers", "Transfer-Encoding", "Upgrade"]

  // ---------------------------------------------------------------------------
  // textproto.CanonicalMIMEHeaderKey

  /** The bytes Go's textproto accepts in a header field name (RFC 7230 token characters). */
  predicate IsTokenChar(c: char) {
    ('a' <= c <= 'z') || ('A' <= c <= 'Z') || ('0' <= c <= '9') || c in "!#$%&'*+-.^_`|~"
  }

  function ToUpper(c: char): char {
    if 'a' <= c <= 'z' then (c as int - 32) as char else c
  }

  function ToLower(c: char): char {
    if 'A' <= c <= 'Z' then (c as int + 32) as char else c
  }

  /** Upper case at the start and after each '-', lower case elsewhere. */
  function Recase(s: string, upper: bool): string {
    if s == [] then []
    else [if upper then ToUpper(s[0]) else ToLower(s[0])] + Recase(s[1..], s[0] == '-')
  }

  /**
   * The canonical form of a header name: a name made only of token
   * characters is recased, anything else (a space, a colon, a non-ASCII
   * byte) is returned unchanged.
   */
  function CanonicalKey(s: string): string {
    if forall i :: 0 <= i < |s| ==> IsTokenChar(s[i]) then Recase(s, true) else s
  }

  /** The shape of a canonical name, stated position by position. */
  predicate IsCanonical(s: string) {
    forall i :: 0 <= i < |s| ==> CanonicalAt(s, i)
  }

  /** Position `i` is upper case when it starts a word, otherwise it is lower case. */
  predicate CanonicalAt(s: string, i: nat)
    requires i < |s|
  {
    if i == 0 || s[i - 1] == '-' then !('a' <= s[i] <= 'z') else !('A' <= s[i] <= 'Z')
  }

  /** What `Recase(s, upper)` holds at position `i`. */
  function RecasedAt(s: string, upper: bool, i: nat): char
    requires i < |s|
  {
    if (if i == 0 then upper else s[i - 1] == '-') then ToUpper(s[i]) else ToLower(s[i])
  }

  lemma {:induction false} RecaseShape(s: string, upper: bool)
    ensures |Recase(s, upper)| == |s|
    ensures forall i :: 0 <= i < |s| ==> Recase(s, upper)[i] == RecasedAt(s, upper, i)
  {
    if s != [] {
      RecaseShape(s[1..], s[0] == '-');
      forall i | 1 <= i < |s|
        ensures Recase(s, upper)[i] == RecasedAt(s, upper, i)
      {
        assert Recase(s, upper)[i] == Recase(s[1..], s[0] == '-')[i - 1];
        assert s[1..][i - 1] == s[i];
      }
    }
  }

  lemma RecaseIsCanonical(s: string)
    ensures IsCanonical(Recase(s, true))
  {
    RecaseShape(s, true);
    var r := Recase(s, true);
    forall i | 0 <= i < |s|
      ensures r[i] == '-' <==> s[i] == '-'
    {
      assert r[i] == RecasedAt(s, true, i);
    }
  }

  lemma RecaseOfCanonical(s: string)
    requires IsCanonical(s)
    ensures Recase(s, true) == s
  {
    RecaseShape(s, true);
    forall i | 0 <= i < |s|
      ensures Recase(s, true)[i] == s[i]
    {
      assert Recase(s, true)[i] == RecasedAt(s, true, i);
      assert CanonicalAt(s, i);
    }
  }

  /** Canonicalizing yields a canonical name of the same length, and leaves a canonical name alone. */
  lemma CanonicalKeyShape(s: string)
    ensures |CanonicalKey(s)| == |s|
    ensures (forall i :: 0 <= i < |s| ==> IsTokenChar(s[i])) ==> IsCanonical(CanonicalKey(s))
    ensures IsCanonical(s) ==> CanonicalKey(s) == s
  {
    RecaseShape(s, true);
    RecaseIsCanonical(s);
    if IsCanonical(s) {
      RecaseOfCanonical(s);
    }
  }

  /** Canonicalizing twice is canonicalizing once. */
  lemma CanonicalKeyIdempotent(s: string)
    ensures CanonicalKey(CanonicalKey(s)) == CanonicalKey(s)
  {
    CanonicalKeyShape(s);
    var r := CanonicalKey(s);
    CanonicalKeyShape(r);
    if !(forall i :: 0 <= i < |s| ==> IsTokenChar(s[i])) {
      assert r == s;
    }
  }

  /** Each of the eight names is already canonical, so `Del` removes exactly that key. */
  lemma HopHeaderNamesCanonical(i: nat)
    requires i < |HopHeaderNames|
    ensures CanonicalKey(HopHeaderNames[i]) == HopHeaderNames[i]
  {
    var n := HopHeaderNames[i];
    assert IsCanonical(n) by {
      forall k | 0 <= k < |n| ensures CanonicalAt(n, k) {
      }
    }
    CanonicalKeyShape(n);
  }

  /** The source's comment at the "Te" entry: "TE" canonicalizes to "Te". */
  lemma CanonicalTE()
    ensures CanonicalKey("TE") == "Te"
  {
    var s := "TE";
    assert forall i :: 0 <= i < |s| ==> IsTokenChar(s[i]);
    RecaseShape(s, true);
  }

  // ---------------------------------------------------------------------------
  // res.Header and the deletion loop

  /** The header map of the upstream response, updated in place. */
  class HeaderMap {
    var entries: Values

    constructor (h: Values)
      ensures entries == h
    {
      entries := h;
    }

    /** `Header.Del(key)`: removes the canonical form of `key`. */
    method Del(key: string)
      modifies this
      ensures entries == old(entries) - {CanonicalKey(key)}
    {
      entries := entries - {CanonicalKey(key)};
    }
  }

  /** The names the first `i` iterations of the loop delete. */
  function NamesBefore(i: nat): set<string>
    requires i <= |HopHeaderNames|
  {
    set j | 0 <= j < i :: HopHeaderNames[j]
  }

  /** The names the loop deletes. */
  function HopHeaderSet(): set<string> {
    NamesBefore(|HopHeaderNames|)
  }

  lemma NamesBeforeStep(i: nat)
    requires i < |HopHeaderNames|
    ensures NamesBefore(i + 1) == NamesBefore(i) + {HopHeaderNames[i]}
  {
  }

  lemma RemoveOneMore(m: Values, gone: set<string>, name: string)
    ensures m - gone - {name} == m - (gone + {name})
  {
  }

  /**
   * `for _, h := range hopHeaders { res.Header.Del(h) }`: the eight
   * hop-by-hop names are gone and every other entry is untouched.
   */
  method StripHopHeaders(h: HeaderMap)
    modifies h
    ensures h.entries == old(h.entries) - HopHeaderSet()
    ensures forall i :: 0 <= i < |HopHeaderNames| ==> HopHeaderNames[i] !in h.entries
    ensures forall k :: k in h.entries <==> k in old(h.entries) && k !in HopHeaderSet()
    ensures forall k :: k in h.entries ==> h.entries[k] == old(h.entries)[k]
  {
    for i := 0 to |HopHeaderNames|
      invariant h.entries == old(h.entries) - NamesBefore(i)
    {
      HopHeaderNamesCanonical(i);
      h.Del(HopHeaderNames[i]);
      NamesBeforeStep(i);
      RemoveOneMore(old(h.entries), NamesBefore(i), HopHeaderNames[i]);
    }
    assert forall i :: 0 <= i < |HopHeaderNames| ==> HopHeaderNames[i] in HopHeaderSet();
  }
}
