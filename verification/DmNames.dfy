/**
 Direct-message channel names: printed by the server, parsed by the web client.
 */
module DmNames {
  import opened JsCollections

  datatype ChannelMode = Normal | E2e

  function ModeName(mode: ChannelMode): string {
    match mode
    case Normal => "normal"
    case E2e => "e2e"
  }

  /** The order `Array.sort` uses on strings. */
  predicate AtMost(a: string, b: string) {
    a == "" || (b != "" && (a[0] < b[0] || (a[0] == b[0] && AtMost(a[1..], b[1..]))))
  }

  lemma {:induction false} AtMostIsTotal(a: string, b: string)
    ensures AtMost(a, b) || AtMost(b, a)
    ensures AtMost(a, b) && AtMost(b, a) ==> a == b
  {
    if a != "" && b != "" && a[0] == b[0] {
      AtMostIsTotal(a[1..], b[1..]);
      assert a == [a[0]] + a[1..] && b == [b[0]] + b[1..];
    }
  }

  function SortPair(a: string, b: string): (string, string) {
    if AtMost(a, b) then (a, b) else (b, a)
  }

  /** The name the server derives for a direct message. */
  function DmName(actor: string, peer: string, mode: ChannelMode): string {
    var (a, b) := SortPair(actor, peer);
    "dm:" + (a + ":" + (b + ":" + ModeName(mode)))
  }

  /** `s.split(":")`. */
  function Split(s: string): (parts: seq<string>)
    ensures |parts| >= 1
    ensures forall p :: p in parts ==> ColonFree(p)
  {
    if s == "" then [""]
    else if s[0] == ':' then [""] + Split(s[1..])
    else
      var rest := Split(s[1..]);
      assert rest[0] in rest;
      [[s[0]] + rest[0]] + rest[1..]
  }

  predicate ColonFree(s: string) {
    ':' !in s
  }

  predicate Usable(id: string) {
    id != "" && ColonFree(id)
  }

  /** The web client's `parseDmPeerUserId`, for a channel of kind `dm`. */
  function ParsePeer(name: string, currentUser: string): (peer: Option<string>)
    ensures peer.Some? ==> Usable(peer.value)
  {
    var parts := Split(name);
    if |parts| < 3 || parts[1] == "" || parts[2] == "" then None
    else
      assert parts[1] in parts && parts[2] in parts;
      if parts[1] == currentUser then Some(parts[2]) else Some(parts[1])
  }

  lemma {:induction false} SplitAtColon(a: string, rest: string)
    requires ColonFree(a)
    ensures Split(a + ":" + rest) == [a] + Split(rest)
  {
    var s := a + ":" + rest;
    if a == "" {
      assert s[1..] == rest;
    } else {
      assert s[1..] == a[1..] + ":" + rest;
      SplitAtColon(a[1..], rest);
      assert [a[0]] + a[1..] == a;
    }
  }

  lemma {:induction false} SplitWhole(a: string)
    requires ColonFree(a)
    ensures Split(a) == [a]
  {
    if a != "" {
      SplitWhole(a[1..]);
      assert [a[0]] + a[1..] == a;
    }
  }

  lemma SplitDmName(actor: string, peer: string, mode: ChannelMode)
    requires ColonFree(actor) && ColonFree(peer)
    ensures var (a, b) := SortPair(actor, peer);
      Split(DmName(actor, peer, mode)) == ["dm", a, b, ModeName(mode)]
  {
    var (a, b) := SortPair(actor, peer);
    var tail := b + ":" + ModeName(mode);
    SplitWhole(ModeName(mode));
    SplitAtColon(b, ModeName(mode));
    SplitAtColon(a, tail);
    SplitAtColon("dm", a + ":" + tail);
    assert DmName(actor, peer, mode) == "dm" + ":" + (a + ":" + tail);
  }

  /** Either participant derives the same name. */
  lemma DmNameIsSymmetric(actor: string, peer: string, mode: ChannelMode)
    ensures DmName(actor, peer, mode) == DmName(peer, actor, mode)
  {
    AtMostIsTotal(actor, peer);
  }

  /** The parser gives each participant the other one exactly when both ids are non-empty and colon-free. */
  lemma ParseFindsPeerIff(actor: string, peer: string, mode: ChannelMode)
    ensures var name := DmName(actor, peer, mode);
      ParsePeer(name, actor) == Some(peer) && ParsePeer(name, peer) == Some(actor) <==> Usable(actor) && Usable(peer)
  {
    if Usable(actor) && Usable(peer) {
      SplitDmName(actor, peer, mode);
    }
  }

  /** Distinct pairs or modes of colon-free ids never share a name. */
  lemma DmNameIsInjective(a: string, b: string, mode: ChannelMode, c: string, d: string, mode': ChannelMode)
    requires ColonFree(a) && ColonFree(b) && ColonFree(c) && ColonFree(d)
    requires DmName(a, b, mode) == DmName(c, d, mode')
    ensures mode == mode' && ((a == c && b == d) || (a == d && b == c))
  {
    SplitDmName(a, b, mode);
    SplitDmName(c, d, mode');
    var parts := Split(DmName(a, b, mode));
    assert parts[1] == SortPair(c, d).0 && parts[2] == SortPair(c, d).1 && parts[3] == ModeName(mode');
  }

  /** With a colon in an id the same text can be cut in two places: two pairs, one name. */
  lemma ColonsCollide(a: string, b: string, c: string, mode: ChannelMode)
    requires AtMost(a + ":" + b, c) && AtMost(a, b + ":" + c)
    ensures DmName(a + ":" + b, c, mode) == DmName(a, b + ":" + c, mode)
  {
    hide AtMost;
    Recut(a, b, c, ModeName(mode));
  }

  lemma Recut(a: string, b: string, c: string, tail: string)
    ensures (a + ":" + b) + ":" + (c + ":" + tail) == a + ":" + ((b + ":" + c) + ":" + tail)
  {
  }

  /** Such pairs exist. */
  lemma ColonsDoCollide(mode: ChannelMode)
    ensures DmName("a:b", "c", mode) == DmName("a", "b:c", mode)
  {
    assert "a" + ":" + "b" == "a:b" && "b" + ":" + "c" == "b:c";
    assert AtMost("a:b", "c") && AtMost("a", "b:c");
    ColonsCollide("a", "b", "c", mode);
  }
}
