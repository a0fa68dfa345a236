/**
  Attributes that handlers add to the request completion log: filtered, so that
  no protected field and no opaque value gets in at any depth, and bounded.
*/
module RequestAttrs {

  const MAX_REQUEST_ATTRS: int := 16

  const PROTECTED_KEYS: set<string> := {
    "api_key", "api_key_hash", "authorization", "credentials", "credentials_encrypted",
    "duration_ms", "key_hash", "method", "password", "provider_token",
    "request_id", "route", "secret", "status", "token"
  }

  /** A resolved value: of a plain kind, of the opaque kind Any, or a group of attributes. */
  datatype Value = Plain(text: string) | Opaque | Group(members: seq<Attr>)

  datatype Attr = Attr(key: string, value: Value)

  // ---------- keys ----------

  predicate Ascii(c: char) {
    c <= '\U{7F}'
  }

  /**
    What strings.ToLower does to one character, for any version of Unicode: to an
    ASCII character, the usual; to two characters outside ASCII, a lower case in
    ASCII; and every other one it keeps outside ASCII.
  */
  ghost predicate LowersAscii(lower: char -> char) {
    forall c :: if Ascii(AsciiLower(c)) then lower(c) == AsciiLower(c) else !Ascii(lower(c))
  }

  function AsciiLower(c: char): char {
    if 'A' <= c <= 'Z' then (c as int + 32) as char
    else if c == '\U{212A}' then 'k'
    else if c == '\U{0130}' then 'i'
    else c
  }

  type LowerCase = lower: char -> char | LowersAscii(lower) witness AsciiLower

  function Separator(c: char): char {
    if c == '-' || c == '.' then '_' else c
  }

  function Normalize(lower: LowerCase, key: string): (r: string)
    ensures |r| == |key|
    ensures forall i | 0 <= i < |key| :: r[i] == Separator(lower(key[i]))
  {
    if key == "" then "" else [Separator(lower(key[0]))] + Normalize(lower, key[1..])
  }

  predicate IsSeparator(c: char) {
    c == '-' || c == '.' || c == '_'
  }

  /** The same character, up to its case and the choice of separator. */
  predicate SameChar(lower: LowerCase, a: char, b: char) {
    lower(a) == lower(b) || (IsSeparator(a) && IsSeparator(b))
  }

  predicate SameKey(lower: LowerCase, a: string, b: string) {
    |a| == |b| && forall i | 0 <= i < |a| :: SameChar(lower, a[i], b[i])
  }

  lemma SameChars(lower: LowerCase, a: char, b: char)
    ensures Separator(lower(a)) == Separator(lower(b)) <==> SameChar(lower, a, b)
  {
    assert forall c :: IsSeparator(lower(c)) <==> IsSeparator(c);
  }

  /** Two keys are treated alike exactly when they differ in case and separators only. */
  lemma NormalizeIdentifies(lower: LowerCase, a: string, b: string)
    ensures Normalize(lower, a) == Normalize(lower, b) <==> SameKey(lower, a, b)
  {
    if |a| == |b| {
      forall i | 0 <= i < |a|
        ensures Normalize(lower, a)[i] == Normalize(lower, b)[i] <==> SameChar(lower, a[i], b[i])
      {
        SameChars(lower, a[i], b[i]);
      }
    }
  }

  predicate SafeKey(lower: LowerCase, key: string) {
    var k := Normalize(lower, key);
    k != "" && k !in PROTECTED_KEYS
  }

  predicate IsPlain(key: string) {
    forall i | 0 <= i < |key| :: 'a' <= key[i] <= 'z' || key[i] == '_'
  }

  lemma ProtectedArePlain()
    ensures forall key | key in PROTECTED_KEYS :: IsPlain(key)
  {
  }

  lemma PlainIsNormal(lower: LowerCase, key: string)
    requires IsPlain(key)
    ensures Normalize(lower, key) == key
  {
    forall i | 0 <= i < |key| ensures Normalize(lower, key)[i] == key[i] {
      assert lower(key[i]) == AsciiLower(key[i]);
    }
  }

  /** The protected keys are written in the form that keys are normalized to. */
  lemma ProtectedIsNormal(lower: LowerCase, key: string)
    requires key in PROTECTED_KEYS
    ensures Normalize(lower, key) == key
  {
    ProtectedArePlain();
    PlainIsNormal(lower, key);
  }

  lemma SameKeySameVerdict(lower: LowerCase, a: string, b: string)
    requires SameKey(lower, a, b)
    ensures SafeKey(lower, a) == SafeKey(lower, b)
  {
    NormalizeIdentifies(lower, a, b);
  }

  /** A key is refused exactly when it is empty or spells a protected one, in any case and with any separators. */
  lemma SafeKeySpellsNoProtected(lower: LowerCase, key: string)
    ensures SafeKey(lower, key) <==> key != "" && forall p | p in PROTECTED_KEYS :: !SameKey(lower, key, p)
  {
    forall p | p in PROTECTED_KEYS
      ensures SameKey(lower, key, p) <==> Normalize(lower, key) == p
    {
      ProtectedIsNormal(lower, p);
      NormalizeIdentifies(lower, key, p);
    }
  }

  // ---------- keys in ASCII, without reference to any lower-casing ----------

  /** An upper-case letter and its lower case, or two of the three separators, or one character. */
  predicate SameAscii(a: char, b: char) {
    || a == b
    || ('A' <= a <= 'Z' && b as int == a as int + 32)
    || ('A' <= b <= 'Z' && a as int == b as int + 32)
    || (a in {'-', '.', '_'} && b in {'-', '.', '_'})
  }

  /** The same key, up to the case of its ASCII letters and its separators. */
  predicate Respelled(a: string, b: string) {
    |a| == |b| && forall i | 0 <= i < |a| :: SameAscii(a[i], b[i])
  }

  lemma SameAsciiIsSame(lower: LowerCase, a: char, b: char)
    requires SameAscii(a, b)
    ensures SameChar(lower, a, b)
  {
    assert lower(a) == AsciiLower(a) || a > '\U{7F}';
    assert lower(b) == AsciiLower(b) || b > '\U{7F}';
  }

  /** Upper-case letters of ASCII, and the separators, are no way around the filter. */
  lemma RespelledSameVerdict(lower: LowerCase, a: string, b: string)
    requires Respelled(a, b)
    ensures SafeKey(lower, a) == SafeKey(lower, b)
  {
    forall i | 0 <= i < |a| ensures SameChar(lower, a[i], b[i]) {
      SameAsciiIsSame(lower, a[i], b[i]);
    }
    SameKeySameVerdict(lower, a, b);
  }

  /** Changing one capital letter to lower case changes no verdict. */
  lemma OneLetterLowered(lower: LowerCase, key: string, i: nat)
    requires i < |key| && 'A' <= key[i] <= 'Z'
    ensures SafeKey(lower, key) == SafeKey(lower, key[i := (key[i] as int + 32) as char])
  {
    RespelledSameVerdict(lower, key, key[i := (key[i] as int + 32) as char]);
  }

  /** Every spelling of a protected key is refused. */
  lemma ProtectedRefused(lower: LowerCase, key: string, p: string)
    requires p in PROTECTED_KEYS && Respelled(key, p)
    ensures !SafeKey(lower, key)
  {
    ProtectedIsNormal(lower, p);
    RespelledSameVerdict(lower, key, p);
  }

  /** The protected keys are these. */
  lemma ProtectedNames()
    ensures "api_key" in PROTECTED_KEYS && "api_key_hash" in PROTECTED_KEYS && "authorization" in PROTECTED_KEYS
    ensures "credentials" in PROTECTED_KEYS && "credentials_encrypted" in PROTECTED_KEYS
    ensures "duration_ms" in PROTECTED_KEYS && "key_hash" in PROTECTED_KEYS && "method" in PROTECTED_KEYS
    ensures "password" in PROTECTED_KEYS && "provider_token" in PROTECTED_KEYS && "request_id" in PROTECTED_KEYS
    ensures "route" in PROTECTED_KEYS && "secret" in PROTECTED_KEYS && "status" in PROTECTED_KEYS
    ensures "token" in PROTECTED_KEYS
  {
  }

  /** And no others. */
  lemma ProtectedCount()
    ensures |PROTECTED_KEYS| <= 15
  {
  }

  // ---------- the filter ----------

  /** isSafeRequestAttr. */
  predicate IsSafe(lower: LowerCase, a: Attr) {
    SafeKey(lower, a.key) &&
    match a.value
    case Opaque => false
    case Plain(_) => true
    case Group(members) => forall m | m in members :: IsSafe(lower, m)
  }

  /** The attribute at the end of a path of member indices, if there is one. */
  function At(a: Attr, path: seq<nat>): Attr
    requires HasPath(a, path)
    decreases |path|
  {
    if path == [] then a else At(a.value.members[path[0]], path[1..])
  }

  predicate HasPath(a: Attr, path: seq<nat>)
    decreases |path|
  {
    path == [] ||
    (a.value.Group? && path[0] < |a.value.members| && HasPath(a.value.members[path[0]], path[1..]))
  }

  /** Harmless by itself: its own key is safe and its value is not opaque. */
  predicate Harmless(lower: LowerCase, a: Attr) {
    SafeKey(lower, a.key) && !a.value.Opaque?
  }

  ghost predicate HarmlessEverywhere(lower: LowerCase, a: Attr) {
    forall path | HasPath(a, path) :: Harmless(lower, At(a, path))
  }

  /** The filter accepts an attribute exactly when everything in it, at every depth, is harmless. */
  lemma SafeMeansHarmlessEverywhere(lower: LowerCase, a: Attr)
    ensures IsSafe(lower, a) <==> HarmlessEverywhere(lower, a)
  {
    if IsSafe(lower, a) {
      forall path | HasPath(a, path) ensures Harmless(lower, At(a, path)) {
        SafeAlongPath(lower, a, path);
      }
    }
    if HarmlessEverywhere(lower, a) {
      HarmlessIsSafe(lower, a);
    }
  }

  lemma {:induction false} SafeAlongPath(lower: LowerCase, a: Attr, path: seq<nat>)
    requires IsSafe(lower, a) && HasPath(a, path)
    ensures Harmless(lower, At(a, path))
    decreases |path|
  {
    if path != [] {
      SafeAlongPath(lower, a.value.members[path[0]], path[1..]);
    }
  }

  lemma {:induction false} HarmlessIsSafe(lower: LowerCase, a: Attr)
    requires HarmlessEverywhere(lower, a)
    ensures IsSafe(lower, a)
    decreases a
  {
    assert HasPath(a, []) && At(a, []) == a;
    if a.value.Group? {
      forall m | m in a.value.members ensures IsSafe(lower, m) {
        var k: nat :| k < |a.value.members| && a.value.members[k] == m;
        forall path | HasPath(m, path) ensures Harmless(lower, At(m, path)) {
          assert ([k] + path)[1..] == path;
          assert HasPath(a, [k] + path) && At(a, [k] + path) == At(m, path);
        }
        HarmlessIsSafe(lower, m);
      }
    }
  }

  /** The same tree, up to case and separators in its keys and the text of its plain values. */
  predicate SameShape(lower: LowerCase, a: Attr, b: Attr)
    decreases a
  {
    SameKey(lower, a.key, b.key) &&
    match (a.value, b.value)
    case (Group(ms), Group(ns)) => |ms| == |ns| && forall i | 0 <= i < |ms| :: SameShape(lower, ms[i], ns[i])
    case (Opaque, Opaque) => true
    case (Plain(_), Plain(_)) => true
    case _ => false
  }

  lemma GroupsAgree(lower: LowerCase, ms: seq<Attr>, ns: seq<Attr>)
    requires |ms| == |ns| && forall i | 0 <= i < |ms| :: IsSafe(lower, ms[i]) == IsSafe(lower, ns[i])
    ensures (forall m | m in ms :: IsSafe(lower, m)) <==> (forall n | n in ns :: IsSafe(lower, n))
  {
    assert forall i | 0 <= i < |ms| :: ms[i] in ms && ns[i] in ns;
  }

  /** No re-casing and no exchange of separators, anywhere in the tree, changes the verdict. */
  lemma {:induction false} VerdictIgnoresSpelling(lower: LowerCase, a: Attr, b: Attr)
    requires SameShape(lower, a, b)
    ensures IsSafe(lower, a) == IsSafe(lower, b)
    decreases a
  {
    SameKeySameVerdict(lower, a.key, b.key);
    if a.value.Group? {
      var ms, ns := a.value.members, b.value.members;
      forall i | 0 <= i < |ms| ensures IsSafe(lower, ms[i]) == IsSafe(lower, ns[i]) {
        VerdictIgnoresSpelling(lower, ms[i], ns[i]);
      }
      GroupsAgree(lower, ms, ns);
    }
  }

  /** The same tree, up to the ASCII spelling of its keys. */
  predicate RespelledTree(a: Attr, b: Attr)
    decreases a
  {
    Respelled(a.key, b.key) &&
    match (a.value, b.value)
    case (Group(ms), Group(ns)) => |ms| == |ns| && forall i | 0 <= i < |ms| :: RespelledTree(ms[i], ns[i])
    case (Opaque, Opaque) => true
    case (Plain(_), Plain(_)) => true
    case _ => false
  }

  lemma {:induction false} TreeIgnoresSpelling(lower: LowerCase, a: Attr, b: Attr)
    requires RespelledTree(a, b)
    ensures IsSafe(lower, a) == IsSafe(lower, b)
    decreases a
  {
    RespelledSameVerdict(lower, a.key, b.key);
    if a.value.Group? {
      var ms, ns := a.value.members, b.value.members;
      forall i | 0 <= i < |ms| ensures IsSafe(lower, ms[i]) == IsSafe(lower, ns[i]) {
        TreeIgnoresSpelling(lower, ms[i], ns[i]);
      }
      GroupsAgree(lower, ms, ns);
    }
  }

  // ---------- the buffer ----------

  function SafeOnes(lower: LowerCase, attrs: seq<Attr>): seq<Attr> {
    if attrs == [] then []
    else if IsSafe(lower, attrs[0]) then [attrs[0]] + SafeOnes(lower, attrs[1..])
    else SafeOnes(lower, attrs[1..])
  }

  /** Where the safe attributes are. */
  ghost function SafeIndices(lower: LowerCase, attrs: seq<Attr>): (r: set<nat>)
    ensures forall i: nat :: i in r <==> i < |attrs| && IsSafe(lower, attrs[i])
  {
    set i: nat | i < |attrs| && IsSafe(lower, attrs[i])
  }

  /** How many there are. */
  ghost function SafeCount(lower: LowerCase, attrs: seq<Attr>): nat {
    |SafeIndices(lower, attrs)|
  }

  lemma SafeCountNext(lower: LowerCase, attrs: seq<Attr>, a: Attr)
    ensures SafeCount(lower, attrs + [a]) == SafeCount(lower, attrs) + if IsSafe(lower, a) then 1 else 0
  {
    var before, after := SafeIndices(lower, attrs), SafeIndices(lower, attrs + [a]);
    if IsSafe(lower, a) {
      assert after == before + {|attrs|};
    } else {
      assert after == before;
    }
  }

  lemma SafeOnesNext(lower: LowerCase, attrs: seq<Attr>, a: Attr)
    ensures SafeOnes(lower, attrs + [a]) == SafeOnes(lower, attrs) + if IsSafe(lower, a) then [a] else []
  {
    SafeOnesConcat(lower, attrs, [a]);
    assert SafeOnes(lower, [a]) == if IsSafe(lower, a) then [a] else [];
  }

  /** A safe attribute comes after as many others as there are safe ones before it. */
  ghost predicate InPlace(lower: LowerCase, attrs: seq<Attr>, i: nat)
    requires i < |attrs|
  {
    var k := SafeCount(lower, attrs[..i]);
    k < |SafeOnes(lower, attrs)| && SafeOnes(lower, attrs)[k] == attrs[i]
  }

  /** The safe ones, all of them, in their order, and nothing else. */
  lemma {:induction false} SafeOnesInOrder(lower: LowerCase, attrs: seq<Attr>)
    ensures |SafeOnes(lower, attrs)| == SafeCount(lower, attrs)
    ensures forall i: nat | i < |attrs| && IsSafe(lower, attrs[i]) :: InPlace(lower, attrs, i)
    decreases |attrs|
  {
    if attrs != [] {
      var n := |attrs| - 1;
      var front := attrs[..n];
      SafeOnesInOrder(lower, front);
      assert attrs == front + [attrs[n]];
      SafeCountNext(lower, front, attrs[n]);
      SafeOnesNext(lower, front, attrs[n]);
      forall i: nat | i < |attrs| && IsSafe(lower, attrs[i]) ensures InPlace(lower, attrs, i) {
        assert attrs[..i] == front[..i];
        assert i < n ==> InPlace(lower, front, i);
      }
    }
  }

  function Bounded(attrs: seq<Attr>): seq<Attr> {
    if |attrs| <= MAX_REQUEST_ATTRS then attrs else attrs[..MAX_REQUEST_ATTRS]
  }

  /** What the buffer holds after everything in `offered`, in order. */
  function Kept(lower: LowerCase, offered: seq<Attr>): seq<Attr> {
    Bounded(SafeOnes(lower, offered))
  }

  lemma {:induction false} SafeOnesConcat(lower: LowerCase, xs: seq<Attr>, ys: seq<Attr>)
    ensures SafeOnes(lower, xs + ys) == SafeOnes(lower, xs) + SafeOnes(lower, ys)
    decreases |xs|
  {
    if xs == [] {
      assert xs + ys == ys;
    } else {
      assert (xs + ys)[1..] == xs[1..] + ys;
      SafeOnesConcat(lower, xs[1..], ys);
      if IsSafe(lower, xs[0]) {
        Regroup([xs[0]], SafeOnes(lower, xs[1..]), SafeOnes(lower, ys));
      }
    }
  }

  /** How one call extends a buffer. */
  function Extend(lower: LowerCase, stored: seq<Attr>, attrs: seq<Attr>): seq<Attr> {
    Bounded(stored + SafeOnes(lower, attrs))
  }

  function Concat(calls: seq<seq<Attr>>): seq<Attr> {
    if calls == [] then [] else calls[0] + Concat(calls[1..])
  }

  function ExtendAll(lower: LowerCase, stored: seq<Attr>, calls: seq<seq<Attr>>): seq<Attr>
    decreases |calls|
  {
    if calls == [] then stored else ExtendAll(lower, Extend(lower, stored, calls[0]), calls[1..])
  }

  lemma Regroup(xs: seq<Attr>, ys: seq<Attr>, zs: seq<Attr>)
    ensures xs + ys + zs == xs + (ys + zs)
  {
  }

  lemma BoundedTwice(xs: seq<Attr>, ys: seq<Attr>)
    ensures Bounded(Bounded(xs) + ys) == Bounded(xs + ys)
  {
  }

  /** One call, on a buffer that holds the first safe ones of `before`. */
  lemma ExtendKept(lower: LowerCase, before: seq<Attr>, attrs: seq<Attr>)
    ensures Extend(lower, Kept(lower, before), attrs) == Kept(lower, before + attrs)
  {
    SafeOnesConcat(lower, before, attrs);
    BoundedTwice(SafeOnes(lower, before), SafeOnes(lower, attrs));
  }

  /**
    However the attributes are split over calls, the buffer holds the first
    sixteen safe ones of all that were offered, in order.
  */
  lemma {:induction false} BufferKeepsFirstSafe(lower: LowerCase, before: seq<Attr>, calls: seq<seq<Attr>>)
    ensures ExtendAll(lower, Kept(lower, before), calls) == Kept(lower, before + Concat(calls))
    decreases |calls|
  {
    if calls == [] {
      assert before + [] == before;
    } else {
      ExtendKept(lower, before, calls[0]);
      BufferKeepsFirstSafe(lower, before + calls[0], calls[1..]);
      Regroup(before, calls[0], Concat(calls[1..]));
    }
  }

  /** What is stored stays, in place: a later call only appends. */
  lemma StoredStays(lower: LowerCase, offered: seq<Attr>, more: seq<Attr>)
    ensures Kept(lower, offered) <= Kept(lower, offered + more)
    ensures |Kept(lower, offered)| <= 16
    ensures |SafeOnes(lower, offered)| <= 16 ==> Kept(lower, offered) == SafeOnes(lower, offered)
    ensures |SafeOnes(lower, offered)| > 16 ==> Kept(lower, offered) == SafeOnes(lower, offered)[..16]
  {
    SafeOnesConcat(lower, offered, more);
  }

  // ---------- the object ----------

  class RequestContext {
    const lower: LowerCase
    var attrs: seq<Attr>
    /** Everything offered so far. */
    ghost var offered: seq<Attr>

    ghost predicate Valid()
      reads this
    {
      attrs == Kept(lower, offered)
    }

    constructor (lower: LowerCase)
      ensures Valid() && offered == [] && this.lower == lower
    {
      this.lower := lower;
      attrs, offered := [], [];
    }

    /** AddAttrs, under the lock. */
    method Add(more: seq<Attr>)
      requires Valid()
      modifies this
      ensures Valid() && offered == old(offered) + more
      ensures old(attrs) <= attrs
    {
      ExtendKept(lower, offered, more);
      StoredStays(lower, offered, more);
      offered := offered + more;
      for k := 0 to |more|
        invariant attrs == Extend(lower, old(attrs), more[..k])
        invariant offered == old(offered) + more
      {
        ExtendOne(lower, old(attrs), more, k);
        if |attrs| == MAX_REQUEST_ATTRS {
          return;
        }
        if !IsSafe(lower, more[k]) {
          continue;
        }
        attrs := attrs + [more[k]];
      }
      assert more[..|more|] == more;
    }

    /** A copy of what is stored. */
    method Attributes() returns (r: seq<Attr>)
      requires Valid()
      ensures r == Kept(lower, offered)
    {
      r := attrs;
    }
  }

  /** One more attribute of a call: dropped if the buffer is full or it is unsafe, else appended. */
  lemma ExtendOne(lower: LowerCase, stored: seq<Attr>, attrs: seq<Attr>, k: nat)
    requires |stored| <= MAX_REQUEST_ATTRS && k < |attrs|
    ensures var now := Extend(lower, stored, attrs[..k]);
            && Extend(lower, stored, attrs[..k + 1])
               == (if |now| == MAX_REQUEST_ATTRS || !IsSafe(lower, attrs[k]) then now else now + [attrs[k]])
            && (|now| == MAX_REQUEST_ATTRS ==> Extend(lower, stored, attrs) == now)
  {
    assert attrs[..k + 1] == attrs[..k] + [attrs[k]];
    assert attrs == attrs[..k] + attrs[k..];
    ExtendByOne(lower, stored, attrs[..k], attrs[k]);
    ExtendFurther(lower, stored, attrs[..k], attrs[k..]);
  }

  lemma ExtendByOne(lower: LowerCase, stored: seq<Attr>, attrs: seq<Attr>, a: Attr)
    requires |stored| <= MAX_REQUEST_ATTRS
    ensures var now := Extend(lower, stored, attrs);
            Extend(lower, stored, attrs + [a])
            == if |now| == MAX_REQUEST_ATTRS || !IsSafe(lower, a) then now else now + [a]
  {
    ExtendFurther(lower, stored, attrs, [a]);
    assert SafeOnes(lower, [a]) == if IsSafe(lower, a) then [a] else [];
  }

  /** A call can be split in two. */
  lemma ExtendFurther(lower: LowerCase, stored: seq<Attr>, attrs: seq<Attr>, more: seq<Attr>)
    ensures Extend(lower, stored, attrs + more) == Bounded(Extend(lower, stored, attrs) + SafeOnes(lower, more))
  {
    SafeOnesConcat(lower, attrs, more);
    BoundedTwice(stored + SafeOnes(lower, attrs), SafeOnes(lower, more));
    Regroup(stored, SafeOnes(lower, attrs), SafeOnes(lower, more));
  }

  /** AddAttrs: outside a request there is no buffer, and nothing happens. */
  method AddAttrs(context: RequestContext?, more: seq<Attr>)
    requires context != null ==> context.Valid()
    modifies context
    ensures context != null ==> context.Valid() && context.offered == old(context.offered) + more
  {
    if context == null {
      return;
    }
    context.Add(more);
  }
}
