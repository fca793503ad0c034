/**
 * The text whose hash is the request fingerprint (requestHash in internal/payments/validation.go): the JSON of the
 * payload as encoding/json writes it, with its escapes and with the metadata keys sorted.
 */
module Fingerprint {
  import opened Basics
  import Amounts
  import opened Tables
  import opened Protocol

  // ---- JSON strings (section 7 of RFC 8259) ----

  function HexDigit(d: nat): (c: char)
    requires d < 16
    ensures c != ',' && c != '"'
  {
    "0123456789abcdef"[d]
  }

  lemma HexDigitInjective(a: nat, b: nat)
    requires a < 16 && b < 16 && HexDigit(a) == HexDigit(b)
    ensures a == b
  {
  }

  function Hex4(n: nat): string
    requires n < 0x10000
  {
    [HexDigit(n / 16 / 16 / 16), HexDigit(n / 16 / 16 % 16), HexDigit(n / 16 % 16), HexDigit(n % 16)]
  }

  lemma Hex4Injective(a: nat, b: nat)
    requires a < 0x10000 && b < 0x10000 && Hex4(a) == Hex4(b)
    ensures a == b
  {
    hide HexDigit;
    HexDigitInjective(a / 16 / 16 / 16, b / 16 / 16 / 16);
    HexDigitInjective(a / 16 / 16 % 16, b / 16 / 16 % 16);
    HexDigitInjective(a / 16 % 16, b / 16 % 16);
    HexDigitInjective(a % 16, b % 16);
  }

  /** The letter of a two-character escape, if the character has one. */
  function Short(c: char): Option<char> {
    if c == '"' || c == '\\' then Some(c)
    else if c as int == 8 then Some('b')
    else if c as int == 12 then Some('f')
    else if c == '\n' then Some('n')
    else if c == '\r' then Some('r')
    else if c == '\t' then Some('t')
    else None
  }

  /** Control characters, the characters HTML gives a meaning, and the two line separators. */
  predicate Long(c: char) {
    (c as int) < 0x20 || c == '<' || c == '>' || c == '&' || c as int == 0x2028 || c as int == 0x2029
  }

  function Escaped(c: char): (s: string)
    ensures s != "" && s[0] != '"'
  {
    if Short(c).Some? then ['\\', Short(c).value]
    else if Long(c) then "\\u" + Hex4(c as int)
    else [c]
  }

  /** A string's characters and its closing quote. */
  function Rest(s: string): (r: string)
    ensures r != "" && (s == "" <==> r[0] == '"')
  {
    if s == "" then "\"" else Escaped(s[0]) + Rest(s[1..])
  }

  function Quote(s: string): (q: string)
    ensures q != "" && q[0] == '"'
  {
    "\"" + Rest(s)
  }

  lemma LongTail(c: char, x: string)
    requires Short(c).None? && Long(c)
    ensures var t := Escaped(c) + x; |t| >= 6 && t[0] == '\\' && t[1] == 'u' && t[2..6] == Hex4(c as int) && t[6..] == x
  {
  }

  /** No escape is the beginning of another. */
  lemma EscapedPrefixFree(c: char, d: char, x: string, y: string)
    requires Escaped(c) + x == Escaped(d) + y
    ensures c == d && x == y
  {
    hide Hex4;
    var t := Escaped(c) + x;
    if Short(c).Some? || Short(d).Some? {
      assert t[0] == Escaped(c)[0] == Escaped(d)[0];
      assert |t| >= 2;
      if Short(c).Some? && Short(d).Some? {
        assert t[1] == Short(c).value == Short(d).value;
        assert t[2..] == x && t[2..] == y;
      } else if Short(c).Some? {
        if Long(d) { LongTail(d, y); }
      } else {
        if Long(c) { LongTail(c, x); }
      }
    } else if Long(c) || Long(d) {
      assert t[0] == Escaped(c)[0] == Escaped(d)[0];
      if Long(c) { LongTail(c, x); }
      if Long(d) { LongTail(d, y); }
      Hex4Injective(c as int, d as int);
    } else {
      assert t[0] == c == d;
      assert t[1..] == x && t[1..] == y;
    }
  }

  lemma {:induction false} RestPrefixFree(s: string, t: string, x: string, y: string)
    requires Rest(s) + x == Rest(t) + y
    ensures s == t && x == y
  {
    hide Escaped;
    var whole := Rest(s) + x;
    assert whole[0] == Rest(s)[0] == Rest(t)[0];
    if s == "" {
      assert whole[1..] == x && whole[1..] == y;
    } else {
      assert whole == Escaped(s[0]) + (Rest(s[1..]) + x);
      assert whole == Escaped(t[0]) + (Rest(t[1..]) + y);
      EscapedPrefixFree(s[0], t[0], Rest(s[1..]) + x, Rest(t[1..]) + y);
      RestPrefixFree(s[1..], t[1..], x, y);
      assert s == [s[0]] + s[1..] && t == [t[0]] + t[1..];
    }
  }

  /** A quoted string can be cut off the front of a text in one way only. */
  lemma QuotePrefixFree(s: string, t: string, x: string, y: string)
    requires Quote(s) + x == Quote(t) + y
    ensures s == t && x == y
  {
    hide Rest;
    var whole := Quote(s) + x;
    assert whole[1..] == Rest(s) + x && whole[1..] == Rest(t) + y;
    RestPrefixFree(s, t, x, y);
  }

  // ---- numbers ----

  predicate Lacks(s: string, c: char) {
    forall i :: 0 <= i < |s| ==> s[i] != c
  }

  lemma SplitAt(u: string, v: string, c: char, x: string, y: string)
    requires Lacks(u, c) && Lacks(v, c) && u + [c] + x == v + [c] + y
    ensures u == v && x == y
  {
    var whole := u + [c] + x;
    assert whole[|u|] == c && whole[|v|] == c;
    assert forall i :: 0 <= i < |u| ==> whole[i] == u[i];
    assert forall i :: 0 <= i < |v| ==> whole[i] == v[i];
    assert u == whole[..|u|] && v == whole[..|v|];
    assert x == whole[|u| + 1..] && y == whole[|v| + 1..];
  }

  lemma NumberPrefixFree(a: int, b: int, x: string, y: string)
    requires Amounts.FormatInt(a) + "," + x == Amounts.FormatInt(b) + "," + y
    ensures a == b && x == y
  {
    var u, v := Amounts.FormatInt(a), Amounts.FormatInt(b);
    SplitAt(u, v, ',', x, y);
    assert a < 0 <==> u[0] == '-';
    assert b < 0 <==> v[0] == '-';
    if a < 0 {
      assert u[1..] == Decimal(-a) && v[1..] == Decimal(-b);
      DecimalInjective(-a, -b);
    } else {
      DecimalInjective(a, b);
    }
  }

  // ---- sorted keys ----

  predicate Less(a: string, b: string) {
    b != "" && (a == "" || a[0] < b[0] || (a[0] == b[0] && Less(a[1..], b[1..])))
  }

  lemma {:induction false} LessTransitive(a: string, b: string, c: string)
    requires Less(a, b) && Less(b, c)
    ensures Less(a, c)
  {
    if a != "" && a[0] == b[0] == c[0] { LessTransitive(a[1..], b[1..], c[1..]); }
  }

  lemma {:induction false} LessTotal(a: string, b: string)
    ensures Less(a, b) || a == b || Less(b, a)
    ensures !(Less(a, b) && Less(b, a))
  {
    if a != "" && b != "" && a[0] == b[0] {
      LessTotal(a[1..], b[1..]);
      assert a == [a[0]] + a[1..] && b == [b[0]] + b[1..];
    }
  }

  predicate Sorted(s: seq<string>) {
    forall i, j :: 0 <= i < j < |s| ==> Less(s[i], s[j])
  }

  predicate Distinct(s: seq<string>) {
    forall i, j :: 0 <= i < j < |s| ==> s[i] != s[j]
  }

  function Insert(k: string, s: seq<string>): (r: seq<string>)
    ensures forall x :: x in r <==> x == k || x in s
  {
    if s == [] then [k]
    else if Less(k, s[0]) then [k] + s
    else [s[0]] + Insert(k, s[1..])
  }

  function Sort(s: seq<string>): (r: seq<string>)
    ensures forall x :: x in r <==> x in s
  {
    if s == [] then [] else Insert(s[0], Sort(s[1..]))
  }

  lemma {:induction false} SortedCons(k: string, s: seq<string>)
    requires Sorted(s) && forall x :: x in s ==> Less(k, x)
    ensures Sorted([k] + s)
  {
  }

  lemma {:induction false} InsertSorted(k: string, s: seq<string>)
    requires Sorted(s) && k !in s
    ensures Sorted(Insert(k, s))
  {
    if s != [] {
      if Less(k, s[0]) {
        forall x | x in s ensures Less(k, x) {
          if x != s[0] { LessTransitive(k, s[0], x); }
        }
        SortedCons(k, s);
      } else {
        LessTotal(k, s[0]);
        InsertSorted(k, s[1..]);
        SortedCons(s[0], Insert(k, s[1..]));
      }
    }
  }

  lemma {:induction false} SortSorts(s: seq<string>)
    requires Distinct(s)
    ensures Sorted(Sort(s))
  {
    if s != [] {
      SortSorts(s[1..]);
      InsertSorted(s[0], Sort(s[1..]));
    }
  }

  lemma HeadIsLeast(s: seq<string>, x: string)
    requires Sorted(s) && x in s
    ensures x == s[0] || Less(s[0], x)
    ensures x != s[0] ==> x in s[1..]
    ensures x in s[1..] ==> Less(s[0], x) && x != s[0]
  {
    LessTotal(s[0], s[0]);
  }

  /** There is one way to list a set of keys in order. */
  lemma {:induction false} SortedUnique(a: seq<string>, b: seq<string>)
    requires Sorted(a) && Sorted(b) && forall x :: x in a <==> x in b
    ensures a == b
  {
    assert a != [] ==> a[0] in b;
    assert b != [] ==> b[0] in a;
    if a != [] && b != [] {
      HeadIsLeast(a, b[0]);
      HeadIsLeast(b, a[0]);
      LessTotal(a[0], b[0]);
      forall x ensures x in a[1..] <==> x in b[1..] {
        if x in a { HeadIsLeast(a, x); HeadIsLeast(b, x); }
      }
      SortedUnique(a[1..], b[1..]);
      assert a == [a[0]] + a[1..] && b == [b[0]] + b[1..];
    }
  }

  // ---- the payload ----

  /** What the fingerprint covers; a missing return URL and an empty one are the same. */
  datatype Payload = Payload(orderId: string, amount: int, currency: string, description: string, returnUrl: string,
                             metadata: Option<map<string, string>>)

  function PayloadOf(req: CreateRequest): Payload {
    var input := req.input;
    Payload(Decimal(req.slot.order), input.amount, input.currency, input.description,
            if input.returnUrl.Some? then input.returnUrl.value else "", input.metadata)
  }

  /** An order in which the map's keys may be visited. */
  ghost predicate Visits(order: seq<string>, m: map<string, string>) {
    Distinct(order) && forall k :: k in order <==> k in m
  }

  function Members(keys: seq<string>, m: map<string, string>): (s: string)
    requires forall k :: k in keys ==> k in m
    ensures keys != [] ==> s != "" && s[0] == '"'
  {
    if keys == [] then ""
    else Quote(keys[0]) + (":" + (Quote(m[keys[0]]) + (if |keys| > 1 then "," + Members(keys[1..], m) else "")))
  }

  function Object(metadata: Option<map<string, string>>, order: seq<string>): string
    requires metadata.Some? ==> Visits(order, metadata.value)
  {
    if metadata.None? then "null" else "{" + (Members(Sort(order), metadata.value) + "}")
  }

  function Canonical(p: Payload, order: seq<string>): string
    requires p.metadata.Some? ==> Visits(order, p.metadata.value)
  {
    "{\"order_id\":" + (Quote(p.orderId) +
    (",\"amount_minor\":" + (Amounts.FormatInt(p.amount) + "," +
    ("\"currency\":" + (Quote(p.currency) +
    (",\"description\":" + (Quote(p.description) +
    (",\"return_url\":" + (Quote(p.returnUrl) +
    (",\"metadata\":" + (Object(p.metadata, order) + "}")))))))))))
  }

  /** The text does not depend on the order in which the map is visited. */
  lemma VisitOrderIrrelevant(p: Payload, a: seq<string>, b: seq<string>)
    requires p.metadata.Some? ==> Visits(a, p.metadata.value) && Visits(b, p.metadata.value)
    ensures Canonical(p, a) == Canonical(p, b)
  {
    hide Quote, Amounts.FormatInt, Sort, Members;
    if p.metadata.Some? {
      SortSorts(a);
      SortSorts(b);
      SortedUnique(Sort(a), Sort(b));
    }
  }

  lemma DropPrefix(h: string, x: string, y: string)
    requires h + x == h + y
    ensures x == y
  {
    assert x == (h + x)[|h|..] && y == (h + y)[|h|..];
  }

  lemma {:induction false} MembersInjective(ks: seq<string>, m: map<string, string>, ls: seq<string>, n: map<string, string>,
                                            x: string, y: string)
    requires (forall k :: k in ks ==> k in m) && (forall k :: k in ls ==> k in n)
    requires Members(ks, m) + ("}" + x) == Members(ls, n) + ("}" + y)
    ensures ks == ls && (forall k :: k in ks ==> m[k] == n[k]) && x == y
    decreases |ks|, 1
  {
    hide Quote;
    var whole := Members(ks, m) + ("}" + x);
    if ks == [] || ls == [] {
      assert whole[0] == if ks == [] then '}' else '"';
      assert whole[0] == if ls == [] then '}' else '"';
      assert whole == "}" + x && whole == "}" + y;
      DropPrefix("}", x, y);
    } else {
      var ka := if |ks| > 1 then "," + Members(ks[1..], m) else "";
      var la := if |ls| > 1 then "," + Members(ls[1..], n) else "";
      MembersSplit(ks, m, x);
      MembersSplit(ls, n, y);
      QuotePrefixFree(ks[0], ls[0], ":" + (Quote(m[ks[0]]) + (ka + ("}" + x))), ":" + (Quote(n[ls[0]]) + (la + ("}" + y))));
      DropPrefix(":", Quote(m[ks[0]]) + (ka + ("}" + x)), Quote(n[ls[0]]) + (la + ("}" + y)));
      QuotePrefixFree(m[ks[0]], n[ls[0]], ka + ("}" + x), la + ("}" + y));
      MembersTail(ks, m, ls, n, x, y);
      assert ks == [ks[0]] + ks[1..] && ls == [ls[0]] + ls[1..];
    }
  }

  lemma MembersSplit(ks: seq<string>, m: map<string, string>, x: string)
    requires ks != [] && forall k :: k in ks ==> k in m
    ensures var ka := if |ks| > 1 then "," + Members(ks[1..], m) else "";
            Members(ks, m) + ("}" + x) == Quote(ks[0]) + (":" + (Quote(m[ks[0]]) + (ka + ("}" + x))))
  {
    hide Quote;
  }

  lemma {:induction false} MembersTail(ks: seq<string>, m: map<string, string>, ls: seq<string>, n: map<string, string>,
                                       x: string, y: string)
    requires ks != [] && ls != [] && (forall k :: k in ks ==> k in m) && (forall k :: k in ls ==> k in n)
    requires var ka := if |ks| > 1 then "," + Members(ks[1..], m) else "";
             var la := if |ls| > 1 then "," + Members(ls[1..], n) else "";
             ka + ("}" + x) == la + ("}" + y)
    ensures ks[1..] == ls[1..] && (forall k :: k in ks[1..] ==> m[k] == n[k]) && x == y
    decreases |ks|, 0
  {
    hide Quote;
    var ka := if |ks| > 1 then "," + Members(ks[1..], m) else "";
    var la := if |ls| > 1 then "," + Members(ls[1..], n) else "";
    var whole := ka + ("}" + x);
    assert whole[0] == if |ks| > 1 then ',' else '}';
    assert whole[0] == if |ls| > 1 then ',' else '}';
    if |ks| > 1 {
      assert whole == "," + (Members(ks[1..], m) + ("}" + x));
      assert whole == "," + (Members(ls[1..], n) + ("}" + y));
      DropPrefix(",", Members(ks[1..], m) + ("}" + x), Members(ls[1..], n) + ("}" + y));
      MembersInjective(ks[1..], m, ls[1..], n, x, y);
    } else {
      assert whole == "}" + x && whole == "}" + y;
      DropPrefix("}", x, y);
    }
  }

  lemma ObjectInjective(a: Option<map<string, string>>, x: seq<string>, b: Option<map<string, string>>, y: seq<string>)
    requires (a.Some? ==> Visits(x, a.value)) && (b.Some? ==> Visits(y, b.value))
    requires Object(a, x) + "}" == Object(b, y) + "}"
    ensures a == b
  {
    hide Members, Sort;
    var whole := Object(a, x) + "}";
    assert whole[0] == if a.None? then 'n' else '{';
    assert whole[0] == if b.None? then 'n' else '{';
    if a.Some? {
      var i, j := Sort(x), Sort(y);
      assert whole == "{" + (Members(i, a.value) + ("}" + "}"));
      assert whole == "{" + (Members(j, b.value) + ("}" + "}"));
      DropPrefix("{", Members(i, a.value) + ("}" + "}"), Members(j, b.value) + ("}" + "}"));
      MembersInjective(i, a.value, j, b.value, "}", "}");
      assert forall k :: k in a.value <==> k in b.value by {
        assert forall k :: k in a.value <==> k in i;
        assert forall k :: k in b.value <==> k in j;
      }
      assert a.value == b.value;
    }
  }

  /** Different payloads have different texts, however their maps are visited. */
  lemma CanonicalInjective(a: Payload, x: seq<string>, b: Payload, y: seq<string>)
    requires (a.metadata.Some? ==> Visits(x, a.metadata.value)) && (b.metadata.Some? ==> Visits(y, b.metadata.value))
    requires Canonical(a, x) == Canonical(b, y)
    ensures a == b
  {
    hide Quote, Amounts.FormatInt, Object, Visits;
    var ma, mb := Object(a.metadata, x) + "}", Object(b.metadata, y) + "}";
    var ra, rb := ",\"metadata\":" + ma, ",\"metadata\":" + mb;
    var ua, ub := ",\"return_url\":" + (Quote(a.returnUrl) + ra), ",\"return_url\":" + (Quote(b.returnUrl) + rb);
    var da, db := ",\"description\":" + (Quote(a.description) + ua), ",\"description\":" + (Quote(b.description) + ub);
    var ca, cb := "\"currency\":" + (Quote(a.currency) + da), "\"currency\":" + (Quote(b.currency) + db);
    var na, nb := Amounts.FormatInt(a.amount) + "," + ca, Amounts.FormatInt(b.amount) + "," + cb;
    var aa, ab := ",\"amount_minor\":" + na, ",\"amount_minor\":" + nb;
    DropPrefix("{\"order_id\":", Quote(a.orderId) + aa, Quote(b.orderId) + ab);
    QuotePrefixFree(a.orderId, b.orderId, aa, ab);
    DropPrefix(",\"amount_minor\":", na, nb);
    NumberPrefixFree(a.amount, b.amount, ca, cb);
    DropPrefix("\"currency\":", Quote(a.currency) + da, Quote(b.currency) + db);
    QuotePrefixFree(a.currency, b.currency, da, db);
    DropPrefix(",\"description\":", Quote(a.description) + ua, Quote(b.description) + ub);
    QuotePrefixFree(a.description, b.description, ua, ub);
    DropPrefix(",\"return_url\":", Quote(a.returnUrl) + ra, Quote(b.returnUrl) + rb);
    QuotePrefixFree(a.returnUrl, b.returnUrl, ra, rb);
    DropPrefix(",\"metadata\":", ma, mb);
    ObjectInjective(a.metadata, x, b.metadata, y);
  }

  /** A hash function that never collides. */
  ghost predicate CollisionFree(hash: string -> Hash) {
    forall s, t :: hash(s) == hash(t) ==> s == t
  }

  /** requestHash: the request carries the hash of its own payload's text, visited in some order. */
  ghost predicate HashedBy(req: CreateRequest, hash: string -> Hash) {
    exists order: seq<string> :: Hashes(req, hash, order)
  }

  ghost predicate Hashes(req: CreateRequest, hash: string -> Hash, order: seq<string>) {
    && (req.input.metadata.Some? ==> Visits(order, req.input.metadata.value))
    && req.hash == hash(Canonical(PayloadOf(req), order))
  }

  /** Two requests have the same fingerprint exactly when their payloads are the same. */
  lemma SameFingerprint(hash: string -> Hash, a: CreateRequest, b: CreateRequest)
    requires CollisionFree(hash) && HashedBy(a, hash) && HashedBy(b, hash)
    ensures a.hash == b.hash <==> PayloadOf(a) == PayloadOf(b)
  {
    hide Canonical, Visits;
    var x :| Hashes(a, hash, x);
    var y :| Hashes(b, hash, y);
    if PayloadOf(a) == PayloadOf(b) {
      VisitOrderIrrelevant(PayloadOf(a), x, y);
    } else if Canonical(PayloadOf(a), x) == Canonical(PayloadOf(b), y) {
      CanonicalInjective(PayloadOf(a), x, PayloadOf(b), y);
    }
  }

  /** Under a key bound to a request, another is refused as a conflict exactly when its payload is another one. */
  lemma ConflictExactly(hash: string -> Hash, bound: CreateRequest, p: Uuid, req: CreateRequest)
    requires CollisionFree(hash) && HashedBy(bound, hash) && HashedBy(req, hash)
    ensures StartReplay(req, IdempotencyRequest(bound.hash, Some(p))) == Fail(req, IdempotencyConflict)
            <==> PayloadOf(req) != PayloadOf(bound)
  {
    hide PayloadOf, HashedBy;
    SameFingerprint(hash, bound, req);
  }
}
