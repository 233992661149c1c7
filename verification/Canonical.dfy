/** The canonical body of a checkout request. Its JSON text stands for its digest: two
    requests count as the same exactly when their texts are equal. */
module Canonical {
  import opened Pricing
  import opened Ordering
  import opened Json

  datatype Request = Request(mode: string, items: seq<Item>, email: string, metadata: map<string, string>)

  /** An element of one of the two lists of the body. */
  datatype Element = ItemElement(item: Item) | PairElement(key: string, value: string)

  datatype Body = Body(mode: string, items: seq<Element>, email: string, metadata: seq<Element>)

  // ---- From request to body ------------------------------------------------------

  function ItemElements(items: seq<Item>): seq<Element> {
    seq(|items|, i requires 0 <= i < |items| => ItemElement(items[i]))
  }

  function PairElements(keys: seq<string>, metadata: map<string, string>): (r: seq<Element>)
    requires forall k :: k in keys ==> k in metadata
  {
    seq(|keys|, i requires 0 <= i < |keys| => PairElement(keys[i], metadata[keys[i]]))
  }

  function CanonicalBody(r: Request): Body {
    Body(r.mode, ItemElements(r.items), r.email, PairElements(SortedKeys(r.metadata.Keys), r.metadata))
  }

  /** The keys of a map, in whatever order the map yields them. */
  method CollectKeys(metadata: map<string, string>) returns (keys: seq<string>)
    ensures Distinct(keys) && Lists(keys, metadata.Keys)
  {
    keys := [];
    var rest := metadata.Keys;
    while rest != {}
      invariant rest <= metadata.Keys
      invariant Distinct(keys) && Lists(keys, metadata.Keys - rest)
      decreases rest
    {
      var key :| key in rest;
      CollectKey(keys, metadata.Keys - rest, key);
      assert metadata.Keys - (rest - {key}) == metadata.Keys - rest + {key};
      keys, rest := keys + [key], rest - {key};
    }
    assert metadata.Keys - rest == metadata.Keys;
  }

  /** Sorts the collected metadata keys in place and lists the entries in that order:
      the iteration order of the map leaves no trace. */
  method BuildCanonicalBody(r: Request) returns (body: Body)
    ensures body == CanonicalBody(r)
  {
    var metadata: seq<Element> := [];
    if |r.metadata| > 0 {
      var keys := CollectKeys(r.metadata);
      var a := new string[|keys|](i requires 0 <= i < |keys| => keys[i]);
      assert a[..] == keys;
      SortStrings(a);
      SortingListsTheSame(keys, a[..], r.metadata.Keys);
      SortedListingIsUnique(a[..], r.metadata.Keys);
      metadata := ListEntries(a[..], r.metadata);
    }
    body := Body(r.mode, ItemElements(r.items), r.email, metadata);
  }

  method ListEntries(keys: seq<string>, metadata: map<string, string>) returns (r: seq<Element>)
    requires forall k :: k in keys ==> k in metadata
    ensures r == PairElements(keys, metadata)
  {
    r := [];
    for i := 0 to |keys|
      invariant r == PairElements(keys, metadata)[..i]
    {
      r := r + [PairElement(keys[i], metadata[keys[i]])];
    }
  }

  lemma CollectKey(keys: seq<string>, seen: set<string>, key: string)
    requires Distinct(keys) && Lists(keys, seen) && key !in seen
    ensures Distinct(keys + [key]) && Lists(keys + [key], seen + {key})
  {
    forall i, j | 0 <= i < j < |keys + [key]|
      ensures (keys + [key])[i] != (keys + [key])[j]
    {
      assert keys[i] in keys;
    }
  }

  lemma SortingListsTheSame(before: seq<string>, after: seq<string>, keys: set<string>)
    requires multiset(before) == multiset(after) && Distinct(before) && Lists(before, keys)
    ensures Distinct(after) && Lists(after, keys)
  {
    forall k
      ensures k in after <==> k in keys
    {
      assert k in after <==> k in multiset(after);
      assert k in before <==> k in multiset(before);
    }
    forall i, j | 0 <= i < j < |after|
      ensures after[i] != after[j]
    {
      if after[i] == after[j] {
        CountTwice(after, i, j);
        CountOnce(before, after[i]);
      }
    }
  }

  lemma CountTwice(s: seq<string>, i: nat, j: nat)
    requires i < j < |s| && s[i] == s[j]
    ensures multiset(s)[s[i]] >= 2
  {
    assert s == s[..j] + s[j..];
    assert s[i] == s[..j][i] && s[j] == s[j..][0];
    assert s[i] in multiset(s[..j]) && s[i] in multiset(s[j..]);
  }

  lemma {:induction false} CountOnce(s: seq<string>, x: string)
    requires Distinct(s)
    ensures multiset(s)[x] <= 1
  {
    if s != [] {
      var n := |s| - 1;
      CountOnce(s[..n], x);
      assert s == s[..n] + [s[n]];
      assert forall i :: 0 <= i < n ==> s[..n][i] == s[i];
      assert x == s[n] ==> x !in s[..n];
      assert x == s[n] ==> x !in multiset(s[..n]);
    }
  }

  // ---- From body to text ---------------------------------------------------------

  function ElementTokens(e: Element): (ts: seq<Token>)
    ensures |ts| == 9 && WellSpaced(ts)
  {
    match e
    case ItemElement(item) =>
      [Punct('{'), Str("productId"), Punct(':'), Str(item.productId), Punct(','),
       Str("quantity"), Punct(':'), Num(item.quantity), Punct('}')]
    case PairElement(key, value) =>
      [Punct('{'), Str("key"), Punct(':'), Str(key), Punct(','),
       Str("value"), Punct(':'), Str(value), Punct('}')]
  }

  function RestTokens(es: seq<Element>): (ts: seq<Token>)
    ensures ts != [] && (ts[0] == Punct(']') <==> es == [])
  {
    if es == [] then [Punct(']')]
    else [Punct(',')] + ElementTokens(es[0]) + RestTokens(es[1..])
  }

  function ListTokens(es: seq<Element>): (ts: seq<Token>)
    ensures |ts| >= 2 && (ts[1] == Punct(']') <==> es == [])
  {
    if es == [] then [Punct('['), Punct(']')]
    else [Punct('[')] + ElementTokens(es[0]) + RestTokens(es[1..])
  }

  /** The address is left out when empty. */
  function EmailTokens(email: string): seq<Token> {
    if email == "" then [] else [Punct(','), Str("customerEmail"), Punct(':'), Str(email)]
  }

  /** The metadata list is left out when empty. */
  function MetadataTokens(pairs: seq<Element>): seq<Token> {
    if pairs == [] then [] else [Punct(','), Str("metadata"), Punct(':')] + ListTokens(pairs)
  }

  function HeadTokens(mode: string): seq<Token> {
    [Punct('{'), Str("uiMode"), Punct(':'), Str(mode), Punct(','), Str("items"), Punct(':')]
  }

  function TailTokens(email: string, pairs: seq<Element>): seq<Token> {
    EmailTokens(email) + (MetadataTokens(pairs) + [Punct('}')])
  }

  function BodyTokens(b: Body): seq<Token> {
    HeadTokens(b.mode) + (ListTokens(b.items) + TailTokens(b.email, b.metadata))
  }

  function CanonicalText(r: Request): string {
    Render(BodyTokens(CanonicalBody(r)))
  }

  // ---- The tokens are well spaced ------------------------------------------------

  lemma SpacedConcat(a: seq<Token>, b: seq<Token>)
    requires WellSpaced(a) && WellSpaced(b)
    ensures WellSpaced(a + b)
  {
    forall i | 0 <= i < |a + b|
      ensures SpacedAt(a + b, i)
    {
      if i < |a| {
        assert SpacedAt(a, i);
      } else {
        assert SpacedAt(b, i - |a|);
      }
    }
  }

  lemma {:induction false} RestSpaced(es: seq<Element>)
    ensures WellSpaced(RestTokens(es))
  {
    if es != [] {
      RestSpaced(es[1..]);
      SpacedConcat([Punct(',')], ElementTokens(es[0]));
      SpacedConcat([Punct(',')] + ElementTokens(es[0]), RestTokens(es[1..]));
    }
  }

  lemma ListSpaced(es: seq<Element>)
    ensures WellSpaced(ListTokens(es))
  {
    if es != [] {
      RestSpaced(es[1..]);
      SpacedConcat([Punct('[')], ElementTokens(es[0]));
      SpacedConcat([Punct('[')] + ElementTokens(es[0]), RestTokens(es[1..]));
    }
  }

  lemma TailSpaced(email: string, pairs: seq<Element>)
    ensures WellSpaced(TailTokens(email, pairs))
  {
    ListSpaced(pairs);
    SpacedConcat([Punct(','), Str("metadata"), Punct(':')], ListTokens(pairs));
    SpacedConcat(MetadataTokens(pairs), [Punct('}')]);
    SpacedConcat(EmailTokens(email), MetadataTokens(pairs) + [Punct('}')]);
  }

  lemma HeadSpaced(mode: string)
    ensures WellSpaced(HeadTokens(mode))
  {
  }

  lemma BodySpaced(b: Body)
    ensures WellSpaced(BodyTokens(b))
  {
    HeadSpaced(b.mode);
    ListSpaced(b.items);
    TailSpaced(b.email, b.metadata);
    SpacedConcat(ListTokens(b.items), TailTokens(b.email, b.metadata));
    SpacedConcat(HeadTokens(b.mode), ListTokens(b.items) + TailTokens(b.email, b.metadata));
  }

  // ---- The tokens determine the body ---------------------------------------------

  lemma SplitEqual(a: seq<Token>, b: seq<Token>, x: seq<Token>, y: seq<Token>)
    requires |a| == |b| && a + x == b + y
    ensures a == b && x == y
  {
    assert (a + x)[..|a|] == a;
    assert (b + y)[..|a|] == b;
    assert (a + x)[|a|..] == x;
    assert (b + y)[|a|..] == y;
  }

  lemma ElementInjective(a: Element, b: Element)
    requires ElementTokens(a) == ElementTokens(b)
    ensures a == b
  {
    var s, t := ElementTokens(a), ElementTokens(b);
    assert s[1] == t[1] && s[3] == t[3] && s[7] == t[7];
    assert s[1] == Str(if a.ItemElement? then "productId" else "key");
    assert t[1] == Str(if b.ItemElement? then "productId" else "key");
    assert |"productId"| != |"key"|;
  }

  lemma {:induction false} RestUnique(es: seq<Element>, fs: seq<Element>, x: seq<Token>, y: seq<Token>)
    requires RestTokens(es) + x == RestTokens(fs) + y
    ensures es == fs && x == y
  {
    assert (RestTokens(es) + x)[0] == RestTokens(es)[0] && (RestTokens(fs) + y)[0] == RestTokens(fs)[0];
    if es == [] {
      SplitEqual([Punct(']')], [Punct(']')], x, y);
    } else {
      ConsUnique(Punct(','), es, fs, x, y);
      RestUnique(es[1..], fs[1..], x, y);
      SameHeadAndTail(es, fs);
    }
  }

  lemma ConsUnique(p: Token, es: seq<Element>, fs: seq<Element>, x: seq<Token>, y: seq<Token>)
    requires es != [] && fs != []
    requires [p] + ElementTokens(es[0]) + RestTokens(es[1..]) + x
             == [p] + ElementTokens(fs[0]) + RestTokens(fs[1..]) + y
    ensures es[0] == fs[0] && RestTokens(es[1..]) + x == RestTokens(fs[1..]) + y
  {
    var a, b := [p] + ElementTokens(es[0]), [p] + ElementTokens(fs[0]);
    var u, v := RestTokens(es[1..]), RestTokens(fs[1..]);
    Associative(a, u, x);
    Associative(b, v, y);
    SplitEqual(a, b, u + x, v + y);
    SplitEqual([p], [p], ElementTokens(es[0]), ElementTokens(fs[0]));
    ElementInjective(es[0], fs[0]);
  }

  lemma ListUnique(es: seq<Element>, fs: seq<Element>, x: seq<Token>, y: seq<Token>)
    requires ListTokens(es) + x == ListTokens(fs) + y
    ensures es == fs && x == y
  {
    assert (ListTokens(es) + x)[1] == ListTokens(es)[1] && (ListTokens(fs) + y)[1] == ListTokens(fs)[1];
    if es == [] {
      SplitEqual([Punct('['), Punct(']')], [Punct('['), Punct(']')], x, y);
    } else {
      ConsUnique(Punct('['), es, fs, x, y);
      RestUnique(es[1..], fs[1..], x, y);
      SameHeadAndTail(es, fs);
    }
  }

  /** Which optional members follow the items shows in the second token of the tail. */
  lemma TailShape(email: string, pairs: seq<Element>)
    ensures TailTokens(email, pairs) != []
    ensures TailTokens(email, pairs)[0] == Punct('}') <==> email == "" && pairs == []
    ensures email != "" ==> |TailTokens(email, pairs)| > 1 && TailTokens(email, pairs)[1] == Str("customerEmail")
    ensures email == "" && pairs != [] ==>
              |TailTokens(email, pairs)| > 1 && TailTokens(email, pairs)[1] == Str("metadata")
  {
  }

  lemma MetadataUnique(ps: seq<Element>, qs: seq<Element>)
    requires MetadataTokens(ps) + [Punct('}')] == MetadataTokens(qs) + [Punct('}')]
    ensures ps == qs
  {
    var s, t := MetadataTokens(ps) + [Punct('}')], MetadataTokens(qs) + [Punct('}')];
    assert s[0] == if ps == [] then Punct('}') else Punct(',');
    assert t[0] == if qs == [] then Punct('}') else Punct(',');
    if ps != [] {
      var head := [Punct(','), Str("metadata"), Punct(':')];
      assert s == head + (ListTokens(ps) + [Punct('}')]);
      assert t == head + (ListTokens(qs) + [Punct('}')]);
      SplitEqual(head, head, ListTokens(ps) + [Punct('}')], ListTokens(qs) + [Punct('}')]);
      ListUnique(ps, qs, [Punct('}')], [Punct('}')]);
    }
  }

  lemma TailUnique(e: string, f: string, ps: seq<Element>, qs: seq<Element>)
    requires TailTokens(e, ps) == TailTokens(f, qs)
    ensures e == f && ps == qs
  {
    TailShape(e, ps);
    TailShape(f, qs);
    assert |"customerEmail"| != |"metadata"|;
    assert e == "" <==> f == "";
    SplitEqual(EmailTokens(e), EmailTokens(f), MetadataTokens(ps) + [Punct('}')], MetadataTokens(qs) + [Punct('}')]);
    MetadataUnique(ps, qs);
    if e != "" {
      assert EmailTokens(e)[3] == EmailTokens(f)[3];
    }
  }

  lemma BodyInjective(a: Body, b: Body)
    requires BodyTokens(a) == BodyTokens(b)
    ensures a == b
  {
    var x, y := ListTokens(a.items) + TailTokens(a.email, a.metadata),
        ListTokens(b.items) + TailTokens(b.email, b.metadata);
    SplitEqual(HeadTokens(a.mode), HeadTokens(b.mode), x, y);
    assert HeadTokens(a.mode)[3] == HeadTokens(b.mode)[3];
    ListUnique(a.items, b.items, TailTokens(a.email, a.metadata), TailTokens(b.email, b.metadata));
    TailUnique(a.email, b.email, a.metadata, b.metadata);
  }

  // ---- The body determines the request -------------------------------------------

  lemma ItemsDetermined(a: seq<Item>, b: seq<Item>)
    requires ItemElements(a) == ItemElements(b)
    ensures a == b
  {
    assert |a| == |ItemElements(a)| == |ItemElements(b)| == |b|;
    forall i | 0 <= i < |a|
      ensures a[i] == b[i]
    {
      assert ItemElements(a)[i] == ItemElements(b)[i];
    }
  }

  lemma MetadataSubset(m: map<string, string>, n: map<string, string>, k: string)
    requires PairElements(SortedKeys(m.Keys), m) == PairElements(SortedKeys(n.Keys), n)
    requires k in m
    ensures k in n && n[k] == m[k]
  {
    var ks, ls := SortedKeys(m.Keys), SortedKeys(n.Keys);
    assert k in ks;
    var i :| 0 <= i < |ks| && ks[i] == k;
    assert PairElements(ks, m)[i] == PairElement(k, m[k]);
    assert PairElements(ls, n)[i] == PairElement(ls[i], n[ls[i]]);
  }

  lemma MetadataDetermined(m: map<string, string>, n: map<string, string>)
    requires PairElements(SortedKeys(m.Keys), m) == PairElements(SortedKeys(n.Keys), n)
    ensures m == n
  {
    forall k
      ensures k in m <==> k in n
      ensures k in m ==> m[k] == n[k]
    {
      if k in m {
        MetadataSubset(m, n, k);
      }
      if k in n {
        MetadataSubset(n, m, k);
      }
    }
  }

  /** Two requests have the same canonical text exactly when they agree on mode, items,
      address and metadata: no two different requests share a digest's pre-image. */
  lemma CanonicalTextInjective(a: Request, b: Request)
    ensures CanonicalText(a) == CanonicalText(b) <==> a == b
    ensures CanonicalText(a) != ""
  {
    BodySpaced(CanonicalBody(a));
    BodySpaced(CanonicalBody(b));
    if CanonicalText(a) == CanonicalText(b) {
      RenderInjective(BodyTokens(CanonicalBody(a)), BodyTokens(CanonicalBody(b)));
      BodyInjective(CanonicalBody(a), CanonicalBody(b));
      ItemsDetermined(a.items, b.items);
      MetadataDetermined(a.metadata, b.metadata);
    }
  }

  // ---- What the text looks like ------------------------------------------------------

  function Quoted(s: string): string {
    RenderToken(Str(s))
  }

  /** The name of an object member, which needs no escapes. */
  function Name(name: string): string {
    "\"" + (name + "\"")
  }

  function Member(name: string, value: string): string {
    Name(name) + (":" + value)
  }

  predicate Plain(s: string) {
    forall i :: 0 <= i < |s| ==> !ShortEscaped(s[i]) && !LongEscaped(s[i])
  }

  lemma NameText(name: string)
    requires Plain(name)
    ensures RenderToken(Str(name)) == Name(name)
  {
    PlainQuoted(name);
    assert ['\"'] == "\"";
  }

  lemma Render1(a: Token)
    ensures Render([a]) == RenderToken(a)
  {
    assert [a][1..] == [];
    assert RenderToken(a) + [] == RenderToken(a);
  }

  lemma PunctText(c: char)
    ensures Render([Punct(c)]) == [c]
  {
    Render1(Punct(c));
  }

  lemma Render3(a: Token, b: Token, c: Token)
    ensures Render([a, b, c]) == RenderToken(a) + (RenderToken(b) + RenderToken(c))
  {
    assert [a, b, c] == [a] + ([b] + [c]);
    RenderConcat([a], [b] + [c]);
    RenderConcat([b], [c]);
    Render1(a);
    Render1(b);
    Render1(c);
  }

  lemma MemberText(name: string, value: Token)
    requires Plain(name)
    ensures Render([Str(name), Punct(':'), value]) == Member(name, RenderToken(value))
  {
    NameText(name);
    Render3(Str(name), Punct(':'), value);
  }

  lemma Render5(a: seq<Token>, b: seq<Token>, c: seq<Token>, d: seq<Token>, e: seq<Token>)
    ensures Render(a + b + c + d + e) == Render(a) + Render(b) + Render(c) + Render(d) + Render(e)
  {
    RenderConcat(a, b);
    RenderConcat(a + b, c);
    RenderConcat(a + b + c, d);
    RenderConcat(a + b + c + d, e);
  }

  function ElementText(e: Element): string {
    match e
    case ItemElement(item) =>
      "{" + Member("productId", Quoted(item.productId)) + "," + Member("quantity", Decimal(item.quantity)) + "}"
    case PairElement(key, value) =>
      "{" + Member("key", Quoted(key)) + "," + Member("value", Quoted(value)) + "}"
  }

  lemma TwoMembers(m: string, v: Token, n: string, w: Token)
    requires Plain(m) && Plain(n)
    ensures Render([Punct('{'), Str(m), Punct(':'), v, Punct(','), Str(n), Punct(':'), w, Punct('}')])
            == "{" + Member(m, RenderToken(v)) + "," + Member(n, RenderToken(w)) + "}"
  {
    var a, b := [Str(m), Punct(':'), v], [Str(n), Punct(':'), w];
    var all := [Punct('{'), Str(m), Punct(':'), v, Punct(','), Str(n), Punct(':'), w, Punct('}')];
    assert all == [Punct('{')] + a + [Punct(',')] + b + [Punct('}')];
    Render5([Punct('{')], a, [Punct(',')], b, [Punct('}')]);
    PunctText('{');
    PunctText(',');
    PunctText('}');
    MemberText(m, v);
    MemberText(n, w);
  }

  lemma ElementTextExactly(e: Element)
    ensures Render(ElementTokens(e)) == ElementText(e)
  {
    match e {
      case ItemElement(item) => TwoMembers("productId", Str(item.productId), "quantity", Num(item.quantity));
      case PairElement(key, value) => TwoMembers("key", Str(key), "value", Str(value));
    }
  }

  /** The elements of a list, separated by commas, and the closing bracket. */
  function RestText(es: seq<Element>): string {
    if es == [] then "]" else "," + ElementText(es[0]) + RestText(es[1..])
  }

  function ListText(es: seq<Element>): string {
    if es == [] then "[]" else "[" + ElementText(es[0]) + RestText(es[1..])
  }

  lemma {:induction false} RestTextExactly(es: seq<Element>)
    ensures Render(RestTokens(es)) == RestText(es)
  {
    if es == [] {
      PunctText(']');
    } else {
      RenderConcat([Punct(',')], ElementTokens(es[0]));
      RenderConcat([Punct(',')] + ElementTokens(es[0]), RestTokens(es[1..]));
      PunctText(',');
      ElementTextExactly(es[0]);
      RestTextExactly(es[1..]);
    }
  }

  lemma ListTextExactly(es: seq<Element>)
    ensures Render(ListTokens(es)) == ListText(es)
  {
    if es == [] {
      RenderConcat([Punct('[')], [Punct(']')]);
      PunctText(']');
    } else {
      RenderConcat([Punct('[')], ElementTokens(es[0]));
      RenderConcat([Punct('[')] + ElementTokens(es[0]), RestTokens(es[1..]));
      ElementTextExactly(es[0]);
      RestTextExactly(es[1..]);
    }
    PunctText('[');
  }

  lemma NamesArePlain()
    ensures Plain("uiMode") && Plain("items") && Plain("customerEmail") && Plain("metadata")
  {
  }

  lemma OpeningText(m: string, v: Token, n: string)
    requires Plain(m) && Plain(n)
    ensures Render([Punct('{'), Str(m), Punct(':'), v, Punct(','), Str(n), Punct(':')])
            == "{" + Member(m, RenderToken(v)) + "," + Name(n) + ":"
  {
    var a := [Str(m), Punct(':'), v];
    assert [Punct('{'), Str(m), Punct(':'), v, Punct(','), Str(n), Punct(':')]
           == [Punct('{')] + a + [Punct(',')] + [Str(n)] + [Punct(':')];
    Render5([Punct('{')], a, [Punct(',')], [Str(n)], [Punct(':')]);
    PunctText('{');
    PunctText(',');
    PunctText(':');
    Render1(Str(n));
    MemberText(m, v);
    NameText(n);
  }

  lemma CommaMember(name: string, v: Token)
    requires Plain(name)
    ensures Render([Punct(','), Str(name), Punct(':'), v]) == "," + Member(name, RenderToken(v))
  {
    assert [Punct(','), Str(name), Punct(':'), v] == [Punct(',')] + [Str(name), Punct(':'), v];
    RenderConcat([Punct(',')], [Str(name), Punct(':'), v]);
    PunctText(',');
    MemberText(name, v);
  }

  lemma CommaList(name: string, es: seq<Element>)
    requires Plain(name)
    ensures Render([Punct(','), Str(name), Punct(':')] + ListTokens(es)) == "," + (Name(name) + ":") + ListText(es)
  {
    RenderConcat([Punct(','), Str(name), Punct(':')], ListTokens(es));
    Render3(Punct(','), Str(name), Punct(':'));
    NameText(name);
    ListTextExactly(es);
  }

  lemma HeadText(mode: string)
    ensures Render(HeadTokens(mode)) == "{" + Member("uiMode", Quoted(mode)) + "," + Name("items") + ":"
  {
    NamesArePlain();
    OpeningText("uiMode", Str(mode), "items");
  }

  function EmailText(email: string): string {
    if email == "" then "" else "," + Member("customerEmail", Quoted(email))
  }

  function MetadataText(pairs: seq<Element>): string {
    if pairs == [] then "" else "," + (Name("metadata") + ":") + ListText(pairs)
  }

  lemma EmailTextExactly(email: string)
    ensures Render(EmailTokens(email)) == EmailText(email)
  {
    if email != "" {
      NamesArePlain();
      CommaMember("customerEmail", Str(email));
    }
  }

  lemma MetadataTextExactly(pairs: seq<Element>)
    ensures Render(MetadataTokens(pairs)) == MetadataText(pairs)
  {
    if pairs != [] {
      NamesArePlain();
      CommaList("metadata", pairs);
    }
  }

  /** The text that is hashed, letter for letter: the members in this order, the address and
      the metadata only if there are any, and the metadata sorted by key. */
  lemma CanonicalTextExactly(r: Request)
    ensures CanonicalText(r) ==
            "{" + Member("uiMode", Quoted(r.mode)) + "," + Name("items") + ":" + (ListText(ItemElements(r.items))
            + (EmailText(r.email) + (MetadataText(PairElements(SortedKeys(r.metadata.Keys), r.metadata)) + "}")))
  {
    var b := CanonicalBody(r);
    RenderConcat(HeadTokens(b.mode), ListTokens(b.items) + TailTokens(b.email, b.metadata));
    RenderConcat(ListTokens(b.items), TailTokens(b.email, b.metadata));
    RenderConcat(EmailTokens(b.email), MetadataTokens(b.metadata) + [Punct('}')]);
    RenderConcat(MetadataTokens(b.metadata), [Punct('}')]);
    PunctText('}');
    HeadText(b.mode);
    ListTextExactly(b.items);
    EmailTextExactly(b.email);
    MetadataTextExactly(b.metadata);
  }
}
