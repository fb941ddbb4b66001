/** Node details that the hardware phase put into a ClusterInstance survive its re-rendering:
    they are extracted from the existing object and assigned to the rendered one. */
module NodeDetails {
  import opened Wrappers

  /** The field names that matter here, and any other. */
  datatype Key =
    | HOST_NAME | BMC_ADDRESS | BOOT_MAC | BMC_CREDENTIALS | HOST_REF | NODE_NETWORK | INTERFACES
    | NAME | NAMESPACE | MAC_ADDRESS | Custom(key: string)

  datatype Json = Text(text: string) | Object(fields: map<Key, Json>) | List(items: seq<Json>) | Other

  type Fields = map<Key, Json>

  function TextAt(m: Fields, key: Key): Option<string> {
    if key in m && m[key].Text? then Some(m[key].text) else None
  }

  function ObjectAt(m: Fields, key: Key): Option<Fields> {
    if key in m && m[key].Object? then Some(m[key].fields) else None
  }

  /** What is known of a node. An absent host reference has empty parts. */
  datatype Info = Info(
    bmcAddress: Option<string>,
    bootMac: Option<string>,
    credentials: Option<string>,
    hostName: string,
    hostNamespace: string,
    macs: map<string, string>)

  // ---------------------------------------------------------------- interfaces

  function NameOf(e: Json): Option<string> {
    if e.Object? then TextAt(e.fields, NAME) else None
  }

  function MacOf(e: Json): Option<string> {
    if e.Object? then TextAt(e.fields, MAC_ADDRESS) else None
  }

  /** The address of every named interface; the last one of a name counts. */
  function Macs(items: seq<Json>): map<string, string> {
    if items == [] then map[]
    else
      var m, e := Macs(items[..|items| - 1]), items[|items| - 1];
      if NameOf(e).Some? && MacOf(e).Some? then m[NameOf(e).value := MacOf(e).value] else m
  }

  predicate Named(items: seq<Json>, name: string) {
    exists i :: 0 <= i < |items| && NameOf(items[i]) == Some(name)
  }

  function WithMac(e: Json, mac: string): Json
    requires e.Object?
  {
    Object(e.fields[MAC_ADDRESS := Text(mac)])
  }

  /** Sets the address of the last interface of every name in `macs`. */
  function SetMacs(items: seq<Json>, macs: map<string, string>): seq<Json> {
    if items == [] then []
    else
      var front, e := items[..|items| - 1], items[|items| - 1];
      if NameOf(e).Some? && NameOf(e).value in macs
      then SetMacs(front, macs - {NameOf(e).value}) + [WithMac(e, macs[NameOf(e).value])]
      else SetMacs(front, macs) + [e]
  }

  function NewInterface(name: string, mac: string): Json {
    Object(map[NAME := Text(name), MAC_ADDRESS := Text(mac)])
  }

  /** New interfaces, each once, for exactly the given names, in any order. */
  predicate Appends(extra: seq<Json>, names: set<string>, macs: map<string, string>) {
    if extra == [] then names == {}
    else
      var e := extra[|extra| - 1];
      && NameOf(e).Some? && NameOf(e).value in names && NameOf(e).value in macs
      && e == NewInterface(NameOf(e).value, macs[NameOf(e).value])
      && Appends(extra[..|extra| - 1], names - {NameOf(e).value}, macs)
  }

  function Unnamed(items: seq<Json>, macs: map<string, string>): set<string> {
    set name | name in macs && !Named(items, name)
  }

  ghost predicate Updated(items: seq<Json>, macs: map<string, string>, result: seq<Json>) {
    exists extra :: Appends(extra, Unnamed(items, macs), macs) && result == SetMacs(items, macs) + extra
  }

  lemma {:induction false} SetMacsShape(items: seq<Json>, macs: map<string, string>)
    ensures |SetMacs(items, macs)| == |items|
    ensures forall i :: 0 <= i < |items| ==> NameOf(SetMacs(items, macs)[i]) == NameOf(items[i])
  {
    if items != [] {
      var front, e := items[..|items| - 1], items[|items| - 1];
      SetMacsShape(front, if NameOf(e).Some? then macs - {NameOf(e).value} else macs);
      SetMacsShape(front, macs);
    }
  }

  function MacAt(items: seq<Json>, name: string): Option<string> {
    if name in Macs(items) then Some(Macs(items)[name]) else None
  }

  lemma MacAtSnoc(front: seq<Json>, e: Json, name: string)
    ensures MacAt(front + [e], name) == if NameOf(e) == Some(name) && MacOf(e).Some? then MacOf(e) else MacAt(front, name)
  {
    assert (front + [e])[..|front + [e]| - 1] == front;
  }

  /** After setting, a named interface has the given address and the others keep theirs. */
  lemma {:induction false} SetMacsSets(items: seq<Json>, macs: map<string, string>, name: string)
    ensures MacAt(SetMacs(items, macs), name) ==
      if name in macs && Named(items, name) then Some(macs[name]) else MacAt(items, name)
  {
    if items != [] {
      hide Macs, MacAt, Named;
      var front, e := items[..|items| - 1], items[|items| - 1];
      var hit := NameOf(e).Some? && NameOf(e).value in macs;
      var rest := if hit then macs - {NameOf(e).value} else macs;
      SetMacsSets(front, rest, name);
      NamedSnoc(front, e, name);
      assert items == front + [e];
      MacAtSnoc(front, e, name);
      MacAtSnoc(SetMacs(front, rest), if hit then WithMac(e, macs[NameOf(e).value]) else e, name);
    } else {
      assert SetMacs(items, macs) == items && !Named(items, name);
    }
  }

  lemma NamedSnoc(front: seq<Json>, e: Json, name: string)
    ensures Named(front + [e], name) <==> Named(front, name) || NameOf(e) == Some(name)
  {
    var all := front + [e];
    assert forall i :: 0 <= i < |front| ==> all[i] == front[i];
    assert all[|front|] == e;
  }

  lemma {:induction false} MacsOfExtra(items: seq<Json>, extra: seq<Json>, names: set<string>, macs: map<string, string>, name: string)
    requires Appends(extra, names, macs)
    ensures name in names ==> name in macs
    ensures MacAt(items + extra, name) == if name in names then Some(macs[name]) else MacAt(items, name)
  {
    if extra == [] {
      assert items + extra == items;
    } else {
      var e := extra[|extra| - 1];
      MacsOfExtra(items, extra[..|extra| - 1], names - {NameOf(e).value}, macs, name);
      var all := items + extra;
      assert all[..|all| - 1] == items + extra[..|extra| - 1];
    }
  }

  /** Every given address is found again; other interfaces keep theirs. */
  lemma UpdatedMacs(items: seq<Json>, macs: map<string, string>, result: seq<Json>, name: string)
    requires Updated(items, macs, result)
    ensures MacAt(result, name) == if name in macs then Some(macs[name]) else MacAt(items, name)
  {
    var extra :| Appends(extra, Unnamed(items, macs), macs) && result == SetMacs(items, macs) + extra;
    SetMacsSets(items, macs, name);
    MacsOfExtra(SetMacs(items, macs), extra, Unnamed(items, macs), macs, name);
  }

  // ---------------------------------------------------------------- setting again

  lemma SetMacsLast(front: seq<Json>, e: Json, macs: map<string, string>)
    requires NameOf(e).Some? && NameOf(e).value in macs
    ensures var k := NameOf(e).value;
      SetMacs(front + [e], macs) == SetMacs(front, macs - {k}) + [WithMac(e, macs[k])]
  {
    assert (front + [e])[..|front + [e]| - 1] == front;
  }

  lemma SetMacsSkip(front: seq<Json>, e: Json, macs: map<string, string>)
    requires NameOf(e).None? || NameOf(e).value !in macs
    ensures SetMacs(front + [e], macs) == SetMacs(front, macs) + [e]
  {
    assert (front + [e])[..|front + [e]| - 1] == front;
  }

  ghost predicate Agree(items: seq<Json>, a: map<string, string>, b: map<string, string>) {
    forall name :: Named(items, name) ==> (name in a <==> name in b) && (name in a ==> a[name] == b[name])
  }

  lemma AgreeFront(front: seq<Json>, e: Json, a: map<string, string>, b: map<string, string>)
    requires Agree(front + [e], a, b)
    ensures Agree(front, a, b)
    ensures NameOf(e).Some? ==>
      var k := NameOf(e).value;
      (k in a <==> k in b) && (k in a ==> a[k] == b[k]) && Agree(front, a - {k}, b - {k})
  {
    forall name | Named(front, name) || NameOf(e) == Some(name)
      ensures Named(front + [e], name)
    {
      NamedSnoc(front, e, name);
    }
  }

  lemma {:induction false} SetMacsAgain(items: seq<Json>, macs: map<string, string>, again: map<string, string>)
    requires Agree(items, macs, again)
    ensures SetMacs(SetMacs(items, macs), again) == SetMacs(items, macs)
  {
    if items != [] {
      var front, e := items[..|items| - 1], items[|items| - 1];
      assert items == front + [e];
      AgreeFront(front, e, macs, again);
      hide SetMacs, Agree;
      if NameOf(e).Some? && NameOf(e).value in macs {
        var k := NameOf(e).value;
        var r := WithMac(e, macs[k]);
        SetMacsLast(front, e, macs);
        SetMacsAgain(front, macs - {k}, again - {k});
        SetMacsLast(SetMacs(front, macs - {k}), r, again);
        assert WithMac(r, again[k]) == r;
      } else {
        SetMacsSkip(front, e, macs);
        SetMacsAgain(front, macs, again);
        SetMacsSkip(SetMacs(front, macs), e, again);
      }
    }
  }

  lemma {:induction false} SetMacsOnExtra(items: seq<Json>, extra: seq<Json>, names: set<string>,
                                          macs: map<string, string>, again: map<string, string>)
    requires Appends(extra, names, macs) && forall name :: name in names ==> name in again && name in macs && again[name] == macs[name]
    ensures SetMacs(items + extra, again) == SetMacs(items, again - names) + extra
  {
    if extra == [] {
      assert items + extra == items && again - names == again;
    } else {
      var front, e := extra[..|extra| - 1], extra[|extra| - 1];
      var k := NameOf(e).value;
      assert items + extra == (items + front) + [e];
      SetMacsLast(items + front, e, again);
      assert WithMac(e, again[k]) == e;
      hide SetMacs;
      SetMacsOnExtra(items, front, names - {k}, macs, again - {k});
      assert again - {k} - (names - {k}) == again - names;
      assert extra == front + [e];
    }
  }

  lemma {:induction false} ExtraNames(extra: seq<Json>, names: set<string>, macs: map<string, string>, name: string)
    requires Appends(extra, names, macs)
    ensures Named(extra, name) <==> name in names
  {
    if extra != [] {
      var front, e := extra[..|extra| - 1], extra[|extra| - 1];
      ExtraNames(front, names - {NameOf(e).value}, macs, name);
      NamedSnoc(front, e, name);
      assert extra == front + [e];
    }
  }

  lemma NamedInUpdated(items: seq<Json>, macs: map<string, string>, extra: seq<Json>, name: string)
    requires Appends(extra, Unnamed(items, macs), macs) && name in macs
    ensures Named(SetMacs(items, macs) + extra, name)
  {
    var once := SetMacs(items, macs) + extra;
    SetMacsShape(items, macs);
    ExtraNames(extra, Unnamed(items, macs), macs, name);
    if Named(items, name) {
      var i :| 0 <= i < |items| && NameOf(items[i]) == Some(name);
      assert NameOf(once[i]) == Some(name);
    } else {
      var i :| 0 <= i < |extra| && NameOf(extra[i]) == Some(name);
      assert once[|items| + i] == extra[i];
    }
  }

  lemma NothingUnnamed(items: seq<Json>, macs: map<string, string>, extra: seq<Json>)
    requires Appends(extra, Unnamed(items, macs), macs)
    ensures Unnamed(SetMacs(items, macs) + extra, macs) == {}
  {
    hide Appends, SetMacs, Named;
    forall name | name in macs
      ensures Named(SetMacs(items, macs) + extra, name)
    {
      NamedInUpdated(items, macs, extra, name);
    }
  }

  lemma SetUpdated(items: seq<Json>, macs: map<string, string>, extra: seq<Json>)
    requires Appends(extra, Unnamed(items, macs), macs)
    ensures SetMacs(SetMacs(items, macs) + extra, macs) == SetMacs(items, macs) + extra
  {
    var names := Unnamed(items, macs);
    MacsOfExtraNames(extra, names, macs);
    SetMacsOnExtra(SetMacs(items, macs), extra, names, macs, macs);
    hide SetMacs;
    SetMacsAgain(items, macs, macs - names);
  }

  /** Updating twice is updating once, to the letter. */
  lemma UpdatedTwice(items: seq<Json>, macs: map<string, string>, once: seq<Json>, twice: seq<Json>)
    requires Updated(items, macs, once) && Updated(once, macs, twice)
    ensures twice == once
  {
    var extra :| Appends(extra, Unnamed(items, macs), macs) && once == SetMacs(items, macs) + extra;
    NothingUnnamed(items, macs, extra);
    SetUpdated(items, macs, extra);
    hide SetMacs, Unnamed;
    var more :| Appends(more, Unnamed(once, macs), macs) && twice == SetMacs(once, macs) + more;
    assert more == [];
  }

  lemma MacsOfExtraNames(extra: seq<Json>, names: set<string>, macs: map<string, string>)
    requires Appends(extra, names, macs)
    ensures forall name :: name in names ==> name in macs
  {
    forall name | name in names
      ensures name in macs
    {
      MacsOfExtra([], extra, names, macs, name);
    }
  }

  // ---------------------------------------------------------------- one node

  /** The list of interfaces that extraction reads. */
  function Interfaces(node: Fields): seq<Json> {
    match ObjectAt(node, NODE_NETWORK)
    case None => []
    case Some(net) => if INTERFACES in net && net[INTERFACES].List? then net[INTERFACES].items else []
  }

  function Credentials(node: Fields): Option<string> {
    match ObjectAt(node, BMC_CREDENTIALS)
    case None => None
    case Some(creds) => TextAt(creds, NAME)
  }

  /** The host reference counts only if both parts are there. */
  function HostRef(node: Fields): (string, string) {
    match ObjectAt(node, HOST_REF)
    case None => ("", "")
    case Some(ref) =>
      var id, ns := TextAt(ref, NAME), TextAt(ref, NAMESPACE);
      if id.Some? && ns.Some? then (id.value, ns.value) else ("", "")
  }

  function ExtractNode(node: Fields): Info {
    var ref := HostRef(node);
    Info(TextAt(node, BMC_ADDRESS), TextAt(node, BOOT_MAC), Credentials(node), ref.0, ref.1, Macs(Interfaces(node)))
  }

  function ScalarAt(info: Info, key: Key): Option<Json> {
    match key
    case BMC_ADDRESS => if info.bmcAddress.Some? then Some(Text(info.bmcAddress.value)) else None
    case BOOT_MAC => if info.bootMac.Some? then Some(Text(info.bootMac.value)) else None
    case BMC_CREDENTIALS =>
      if info.credentials.Some? then Some(Object(map[NAME := Text(info.credentials.value)])) else None
    case HOST_REF =>
      if info.hostName != "" && info.hostNamespace != ""
      then Some(Object(map[NAME := Text(info.hostName), NAMESPACE := Text(info.hostNamespace)])) else None
    case _ => None
  }

  /** The fields of a node that do not concern its network. */
  function AssignScalars(node: Fields, info: Info): Fields {
    node + map k | k in {BMC_ADDRESS, BOOT_MAC, BMC_CREDENTIALS, HOST_REF} && ScalarAt(info, k).Some? :: ScalarAt(info, k).value
  }

  /** Where interfaces can be written: the network object, empty if the node has none.
      Otherwise the rendered node is malformed and is left to validation. */
  function Network(node: Fields): Option<Fields> {
    if NODE_NETWORK !in node then Some(map[])
    else if !node[NODE_NETWORK].Object? then None
    else
      var net := node[NODE_NETWORK].fields;
      if INTERFACES in net && !net[INTERFACES].List? then None else Some(net)
  }

  ghost predicate Assigned(node: Fields, info: Info, result: Fields) {
    var plain := AssignScalars(node, info);
    if info.macs == map[] || Network(plain).None? then result == plain
    else exists items ::
           Updated(Interfaces(plain), info.macs, items) &&
           result == plain[NODE_NETWORK := Object(Network(plain).value[INTERFACES := List(items)])]
  }

  /** Field by field: the first if it is there, else the second. */
  function Else(a: Option<string>, b: Option<string>): Option<string> {
    if a.Some? then a else b
  }

  lemma NetworkIsKept(node: Fields, info: Info)
    ensures Network(AssignScalars(node, info)) == Network(node)
    ensures Interfaces(AssignScalars(node, info)) == Interfaces(node)
  {
    assert NODE_NETWORK in AssignScalars(node, info) <==> NODE_NETWORK in node;
  }

  predicate ReadsBack(info: Info, x: Info, y: Info) {
    && y.bmcAddress == Else(info.bmcAddress, x.bmcAddress) && y.bootMac == Else(info.bootMac, x.bootMac)
    && y.credentials == Else(info.credentials, x.credentials)
    && (y.hostName, y.hostNamespace) ==
       (if info.hostName == "" || info.hostNamespace == "" then (x.hostName, x.hostNamespace)
        else (info.hostName, info.hostNamespace))
  }

  lemma ScalarsReadBack(node: Fields, info: Info)
    ensures ReadsBack(info, ExtractNode(node), ExtractNode(AssignScalars(node, info)))
  {
    hide Macs, Interfaces;
    var p := AssignScalars(node, info);
    assert TextAt(p, BMC_ADDRESS) == Else(info.bmcAddress, TextAt(node, BMC_ADDRESS));
    assert TextAt(p, BOOT_MAC) == Else(info.bootMac, TextAt(node, BOOT_MAC));
    assert Credentials(p) == Else(info.credentials, Credentials(node));
  }

  /** Writing the network leaves the other details alone. */
  lemma NetworkReadsBack(node: Fields, net: Json)
    ensures var x, y := ExtractNode(node), ExtractNode(node[NODE_NETWORK := net]);
      y == x.(macs := y.macs)
  {
    hide Macs, Interfaces;
  }

  /** Extracting after assigning gives back every detail that was assigned; where nothing was
      assigned, the detail of the rendered node. Interface addresses come back exactly if the
      rendered node has no malformed network, or there are none. */
  lemma AssignedIsExtracted(node: Fields, info: Info, result: Fields)
    requires Assigned(node, info, result)
    ensures ReadsBack(info, ExtractNode(node), ExtractNode(result))
    ensures (forall name :: name in info.macs ==> MacAt(Interfaces(result), name) == Some(info.macs[name])) <==>
      info.macs == map[] || Network(node).Some?
    ensures forall name :: name !in info.macs ==> MacAt(Interfaces(result), name) == MacAt(Interfaces(node), name)
  {
    hide Updated, AssignScalars, ExtractNode, Macs, ReadsBack;
    NetworkIsKept(node, info);
    ScalarsReadBack(node, info);
    var plain := AssignScalars(node, info);
    if info.macs == map[] {
    } else if Network(plain).None? {
      assert Interfaces(plain) == [];
      NoMacs(info);
    } else {
      var items :| Updated(Interfaces(plain), info.macs, items) &&
        result == plain[NODE_NETWORK := Object(Network(plain).value[INTERFACES := List(items)])];
      NetworkReadsBack(plain, result[NODE_NETWORK]);
      SameScalars(info, ExtractNode(node), ExtractNode(plain), ExtractNode(result));
      assert Interfaces(result) == items;
      forall name
        ensures MacAt(items, name) ==
          if name in info.macs then Some(info.macs[name]) else MacAt(Interfaces(plain), name)
      {
        UpdatedMacs(Interfaces(plain), info.macs, items, name);
      }
    }
  }

  lemma NoMacs(info: Info)
    requires info.macs != map[]
    ensures MacAt([], "") == None && exists name :: name in info.macs && MacAt([], name) != Some(info.macs[name])
  {
    var name :| name in info.macs;
    assert MacAt([], name) == None;
  }

  lemma SameScalars(info: Info, x: Info, y: Info, z: Info)
    requires ReadsBack(info, x, y) && z == y.(macs := z.macs)
    ensures ReadsBack(info, x, z)
  {
  }

  lemma ScalarsTwice(node: Fields, info: Info, net: Json)
    ensures var plain := AssignScalars(node, info);
      AssignScalars(plain, info) == plain && AssignScalars(plain[NODE_NETWORK := net], info) == plain[NODE_NETWORK := net]
  {
    hide ScalarAt;
  }

  /** Assigning the same details twice changes nothing the second time. */
  lemma AssignedTwice(node: Fields, info: Info, once: Fields, twice: Fields)
    requires Assigned(node, info, once) && Assigned(once, info, twice)
    ensures twice == once
  {
    hide Updated, AssignScalars;
    var plain := AssignScalars(node, info);
    ScalarsTwice(node, info, Other);
    if info.macs != map[] && Network(plain).Some? {
      var items :| Updated(Interfaces(plain), info.macs, items) &&
        once == plain[NODE_NETWORK := Object(Network(plain).value[INTERFACES := List(items)])];
      ScalarsTwice(node, info, once[NODE_NETWORK]);
      assert plain[NODE_NETWORK := once[NODE_NETWORK]] == once;
      assert Interfaces(once) == items;
      var items' :| Updated(items, info.macs, items') &&
        twice == once[NODE_NETWORK := Object(Network(once).value[INTERFACES := List(items')])];
      UpdatedTwice(Interfaces(plain), info.macs, items, items');
      assert Network(once).value[INTERFACES := List(items)] == Network(once).value;
    }
  }

  // ---------------------------------------------------------------- the loops of the source

  predicate LastIndex(items: seq<Json>, name: string, i: int) {
    0 <= i < |items| && NameOf(items[i]) == Some(name) && forall j :: i < j < |items| ==> NameOf(items[j]) != Some(name)
  }

  method IndexInterfaces(items: seq<Json>) returns (index: map<string, int>)
    ensures forall name :: name in index <==> Named(items, name)
    ensures forall name :: name in index ==> LastIndex(items, name, index[name])
  {
    index := map[];
    for i := 0 to |items|
      invariant forall name :: name in index <==> Named(items[..i], name)
      invariant forall name :: name in index ==> LastIndex(items[..i], name, index[name])
    {
      var e := items[i];
      assert items[..i + 1] == items[..i] + [e];
      forall name
        ensures Named(items[..i + 1], name) <==> Named(items[..i], name) || NameOf(e) == Some(name)
      {
        NamedSnoc(items[..i], e, name);
      }
      if NameOf(e).Some? {
        index := index[NameOf(e).value := i];
      }
    }
    assert items[..|items|] == items;
  }

  lemma {:induction false} SetOneMore(items: seq<Json>, m: map<string, string>, k: string, v: string, i: nat)
    requires k !in m && LastIndex(items, k, i)
    ensures |SetMacs(items, m)| == |items| && SetMacs(items, m)[i].Object?
    ensures SetMacs(items, m[k := v]) == SetMacs(items, m)[i := WithMac(SetMacs(items, m)[i], v)]
  {
    SetMacsShape(items, m);
    var front, e := items[..|items| - 1], items[|items| - 1];
    if i == |items| - 1 {
      assert m[k := v] - {k} == m;
    } else {
      assert LastIndex(front, k, i);
      if NameOf(e).Some? && NameOf(e).value in m {
        var n := NameOf(e).value;
        SetOneMore(front, m - {n}, k, v, i);
        assert m[k := v] - {n} == (m - {n})[k := v];
      } else {
        SetOneMore(front, m, k, v, i);
      }
    }
  }

  lemma {:induction false} SetNoneMore(items: seq<Json>, m: map<string, string>, k: string, v: string)
    requires !Named(items, k)
    ensures SetMacs(items, m[k := v]) == SetMacs(items, m - {k})
  {
    if items != [] {
      var front, e := items[..|items| - 1], items[|items| - 1];
      NamedSnoc(front, e, k);
      assert items == front + [e];
      if NameOf(e).Some? && NameOf(e).value in m {
        var n := NameOf(e).value;
        SetNoneMore(front, m - {n}, k, v);
        assert m[k := v] - {n} == (m - {n})[k := v] && m - {k} - {n} == m - {n} - {k};
      } else {
        SetNoneMore(front, m, k, v);
      }
    }
  }

  function Restrict(macs: map<string, string>, names: set<string>): map<string, string> {
    map n | n in macs && n in names :: macs[n]
  }

  lemma RestrictOneMore(macs: map<string, string>, done: set<string>, k: string)
    requires k in macs && k !in done
    ensures Restrict(macs, done + {k}) == Restrict(macs, done)[k := macs[k]]
    ensures k !in Restrict(macs, done) && Restrict(macs, done) - {k} == Restrict(macs, done)
  {
  }

  lemma UnnamedOneMore(items: seq<Json>, macs: map<string, string>, done: set<string>, k: string)
    requires k in macs && k !in done
    ensures var names := Unnamed(items, Restrict(macs, done));
      k !in names && Unnamed(items, Restrict(macs, done + {k})) == if Named(items, k) then names else names + {k}
  {
  }

  lemma AppendsOneMore(extra: seq<Json>, names: set<string>, macs: map<string, string>, k: string)
    requires Appends(extra, names, macs) && k in macs && k !in names
    ensures Appends(extra + [NewInterface(k, macs[k])], names + {k}, macs)
  {
    var more := extra + [NewInterface(k, macs[k])];
    assert more[..|more| - 1] == extra && names + {k} - {k} == names;
  }

  /** The names in `done` have been written. */
  ghost predicate Written(items: seq<Json>, macs: map<string, string>, done: set<string>,
                          current: seq<Json>, extra: seq<Json>) {
    && current == SetMacs(items, Restrict(macs, done)) && |current| == |items|
    && Appends(extra, Unnamed(items, Restrict(macs, done)), macs)
  }

  method WriteMac(ghost items: seq<Json>, macs: map<string, string>, ghost done: set<string>, k: string,
                  index: map<string, int>, current: seq<Json>, extra: seq<Json>)
    returns (c: seq<Json>, x: seq<Json>)
    requires k in macs && k !in done && Written(items, macs, done, current, extra)
    requires k in index <==> Named(items, k)
    requires k in index ==> LastIndex(items, k, index[k])
    ensures Written(items, macs, done + {k}, c, x)
  {
    hide Restrict, Unnamed, SetMacs, Named, Appends;
    RestrictOneMore(macs, done, k);
    UnnamedOneMore(items, macs, done, k);
    c, x := current, extra;
    if k in index {
      IndexInRange(items, k, index[k]);
      SetOneMore(items, Restrict(macs, done), k, macs[k], index[k]);
      c := c[index[k] := WithMac(c[index[k]], macs[k])];
    } else {
      SetNoneMore(items, Restrict(macs, done), k, macs[k]);
      AppendsOneMore(extra, Unnamed(items, Restrict(macs, done)), macs, k);
      x := x + [NewInterface(k, macs[k])];
    }
  }

  lemma WrittenNothing(items: seq<Json>, macs: map<string, string>)
    ensures Written(items, macs, {}, items, [])
  {
    SetNothing(items);
    assert Restrict(macs, {}) == map[] && Unnamed(items, map[]) == {};
  }

  lemma WrittenAll(items: seq<Json>, macs: map<string, string>, done: set<string>, current: seq<Json>, extra: seq<Json>)
    requires Written(items, macs, done, current, extra) && done == macs.Keys
    ensures Updated(items, macs, current + extra)
  {
    RestrictAll(macs, done);
  }

  /** Writes the addresses into the interfaces of a node, in whatever order the map yields
      them; missing interfaces are appended. */
  method AssignInterfaces(items: seq<Json>, macs: map<string, string>) returns (result: seq<Json>)
    ensures Updated(items, macs, result)
  {
    hide Written, Updated, Named, LastIndex;
    var index := IndexInterfaces(items);
    var current, extra := items, [];
    var left := macs.Keys;
    ghost var done: set<string> := {};
    WrittenNothing(items, macs);
    while left != {}
      invariant left + done == macs.Keys && left !! done && Written(items, macs, done, current, extra)
      decreases |left|
    {
      var k :| k in left;
      current, extra := WriteMac(items, macs, done, k, index, current, extra);
      left, done := left - {k}, done + {k};
    }
    WrittenAll(items, macs, done, current, extra);
    result := current + extra;
  }

  lemma IndexInRange(items: seq<Json>, k: string, i: int)
    requires LastIndex(items, k, i)
    ensures 0 <= i < |items|
  {
  }

  lemma RestrictAll(macs: map<string, string>, done: set<string>)
    requires done == macs.Keys
    ensures Restrict(macs, done) == macs
  {
  }

  lemma {:induction false} SetNothing(items: seq<Json>)
    ensures SetMacs(items, map[]) == items
  {
    if items != [] {
      SetNothing(items[..|items| - 1]);
      assert items == items[..|items| - 1] + [items[|items| - 1]];
    }
  }

  function Overlay(node: Fields, key: Key, value: Option<Json>): Fields {
    if value.None? then node else node[key := value.value]
  }

  lemma ScalarsOneByOne(node: Fields, info: Info)
    ensures AssignScalars(node, info) ==
      Overlay(Overlay(Overlay(Overlay(node, BMC_ADDRESS, ScalarAt(info, BMC_ADDRESS)), BOOT_MAC, ScalarAt(info, BOOT_MAC)),
                      BMC_CREDENTIALS, ScalarAt(info, BMC_CREDENTIALS)), HOST_REF, ScalarAt(info, HOST_REF))
  {
    hide ScalarAt;
  }

  method AssignFields(node: Fields, info: Info) returns (r: Fields)
    ensures r == AssignScalars(node, info)
  {
    hide AssignScalars;
    r := node;
    if info.bmcAddress.Some? {
      r := r[BMC_ADDRESS := Text(info.bmcAddress.value)];
    }
    if info.bootMac.Some? {
      r := r[BOOT_MAC := Text(info.bootMac.value)];
    }
    if info.credentials.Some? {
      r := r[BMC_CREDENTIALS := Object(map[NAME := Text(info.credentials.value)])];
    }
    if info.hostName != "" && info.hostNamespace != "" {
      r := r[HOST_REF := Object(map[NAME := Text(info.hostName), NAMESPACE := Text(info.hostNamespace)])];
    }
    ScalarsOneByOne(node, info);
  }

  /** Assigns the details of one node. */
  method AssignNode(node: Fields, info: Info) returns (r: Fields)
    ensures Assigned(node, info, r)
  {
    hide AssignScalars, Updated;
    r := AssignFields(node, info);
    if info.macs == map[] {
      return;
    }
    var net := map[];
    if NODE_NETWORK in r {
      if !r[NODE_NETWORK].Object? {
        return;
      }
      net := r[NODE_NETWORK].fields;
    }
    var items := [];
    if INTERFACES in net {
      if !net[INTERFACES].List? {
        return;
      }
      items := net[INTERFACES].items;
    }
    assert Network(r) == Some(net) && Interfaces(r) == items;
    var updated := AssignInterfaces(items, info.macs);
    r := r[NODE_NETWORK := Object(net[INTERFACES := List(updated)])];
  }

  function HostOf(node: Json): Option<string> {
    if node.Object? then TextAt(node.fields, HOST_NAME) else None
  }

  /** A node of the list before and after the details were assigned. Nodes of other hosts, and
      nodes that are not objects, stay as they are. */
  ghost predicate CarriedNode(infos: map<string, Info>, before: Json, after: Json) {
    var host := HostOf(before);
    if host.Some? && host.value in infos
    then after.Object? && Assigned(before.fields, infos[host.value], after.fields)
    else after == before
  }

  ghost predicate Carried(infos: map<string, Info>, before: seq<Json>, after: seq<Json>) {
    |after| == |before| && forall i :: 0 <= i < |before| ==> CarriedNode(infos, before[i], after[i])
  }

  /** Assigns the details to all rendered nodes in place. */
  method AssignNodeDetails(nodes: array<Json>, infos: map<string, Info>)
    modifies nodes
    ensures Carried(infos, old(nodes[..]), nodes[..])
  {
    for i := 0 to nodes.Length
      invariant forall j :: i <= j < nodes.Length ==> nodes[j] == old(nodes[j])
      invariant forall j :: 0 <= j < i ==> CarriedNode(infos, old(nodes[j]), nodes[j])
    {
      var host := HostOf(nodes[i]);
      if host.Some? && host.value in infos {
        var r := AssignNode(nodes[i].fields, infos[host.value]);
        nodes[i] := Object(r);
      }
    }
  }

  // ---------------------------------------------------------------- whole lists

  /** What extraction can read: nodes are objects, and so are the interfaces of named nodes. On
      anything else the source stops. */
  predicate Readable(node: Json) {
    node.Object? && (HostOf(node).Some? ==> forall e :: e in Interfaces(node.fields) ==> e.Object?)
  }

  predicate AllReadable(nodes: seq<Json>) {
    forall i :: 0 <= i < |nodes| ==> Readable(nodes[i])
  }

  /** The details of the last node of every host name. */
  function Details(nodes: seq<Json>): map<string, Info> {
    if nodes == [] then map[]
    else
      var m, node := Details(nodes[..|nodes| - 1]), nodes[|nodes| - 1];
      if HostOf(node).None? then m else m[HostOf(node).value := ExtractNode(node.fields)]
  }

  method ReadMacs(items: seq<Json>) returns (macs: Option<map<string, string>>)
    ensures macs.None? <==> exists e :: e in items && !e.Object?
    ensures macs.Some? ==> macs.value == Macs(items)
  {
    var m: map<string, string> := map[];
    for i := 0 to |items|
      invariant m == Macs(items[..i])
      invariant forall e :: e in items[..i] ==> e.Object?
    {
      var e := items[i];
      if !e.Object? {
        return None;
      }
      assert items[..i + 1][..i] == items[..i];
      assert items[..i + 1] == items[..i] + [e];
      if NameOf(e).Some? && MacOf(e).Some? {
        m := m[NameOf(e).value := MacOf(e).value];
      }
    }
    assert items[..|items|] == items;
    return Some(m);
  }

  method ExtractNodeDetails(nodes: seq<Json>) returns (infos: Option<map<string, Info>>)
    ensures infos.Some? <==> AllReadable(nodes)
    ensures infos.Some? ==> infos.value == Details(nodes)
  {
    var found: map<string, Info> := map[];
    for i := 0 to |nodes|
      invariant found == Details(nodes[..i])
      invariant forall j :: 0 <= j < i ==> Readable(nodes[j])
    {
      assert nodes[..i + 1][..i] == nodes[..i];
      if !nodes[i].Object? {
        return None;
      }
      var node := nodes[i].fields;
      if HostOf(nodes[i]).None? {
        continue;
      }
      var macs := ReadMacs(Interfaces(node));
      if macs.None? {
        return None;
      }
      found := found[HostOf(nodes[i]).value := ExtractNode(node).(macs := macs.value)];
    }
    assert nodes[..|nodes|] == nodes;
    return Some(found);
  }

  /** Details of the existing ClusterInstance are carried over to the rendered one. */
  method CarryOver(existing: seq<Json>, nodes: array<Json>) returns (ok: bool)
    modifies nodes
    ensures ok <==> AllReadable(existing)
    ensures if ok then Carried(Details(existing), old(nodes[..]), nodes[..]) else nodes[..] == old(nodes[..])
  {
    var infos := ExtractNodeDetails(existing);
    ok := infos.Some?;
    if ok {
      AssignNodeDetails(nodes, infos.value);
    }
  }

  function LastNode(nodes: seq<Json>, host: string): Option<Fields> {
    if nodes == [] then None
    else if HostOf(nodes[|nodes| - 1]) == Some(host) then Some(nodes[|nodes| - 1].fields)
    else LastNode(nodes[..|nodes| - 1], host)
  }

  lemma {:induction false} DetailsOfLast(nodes: seq<Json>, host: string)
    ensures host in Details(nodes) <==> LastNode(nodes, host).Some?
    ensures host in Details(nodes) ==> Details(nodes)[host] == ExtractNode(LastNode(nodes, host).value)
  {
    if nodes != [] {
      DetailsOfLast(nodes[..|nodes| - 1], host);
    }
  }

  lemma HostIsKept(node: Fields, info: Info, result: Fields)
    requires Assigned(node, info, result)
    ensures TextAt(result, HOST_NAME) == TextAt(node, HOST_NAME)
  {
    hide Updated;
  }

  lemma CarriedHost(infos: map<string, Info>, before: Json, after: Json)
    requires CarriedNode(infos, before, after)
    ensures HostOf(after) == HostOf(before)
  {
    hide Assigned;
    if HostOf(before).Some? && HostOf(before).value in infos {
      HostIsKept(before.fields, infos[HostOf(before).value], after.fields);
    }
  }

  lemma {:induction false} LastIsCarried(infos: map<string, Info>, before: seq<Json>, after: seq<Json>, host: string)
    requires Carried(infos, before, after)
    ensures LastNode(after, host).Some? <==> LastNode(before, host).Some?
    ensures LastNode(before, host).Some? ==>
      if host in infos then Assigned(LastNode(before, host).value, infos[host], LastNode(after, host).value)
      else LastNode(after, host) == LastNode(before, host)
  {
    hide Assigned;
    if before != [] {
      var i := |before| - 1;
      assert CarriedNode(infos, before[i], after[i]);
      CarriedHost(infos, before[i], after[i]);
      assert forall j :: 0 <= j < i ==> before[..i][j] == before[j] && after[..i][j] == after[j];
      LastIsCarried(infos, before[..i], after[..i], host);
    }
  }

  /** Every address of `e` is found in `a`. */
  predicate HasMacs(e: Info, a: Info) {
    forall name :: name in e.macs ==> name in a.macs && a.macs[name] == e.macs[name]
  }

  /** Addresses of other interfaces are those of `b`. */
  predicate KeepsMacs(e: Info, b: Info, a: Info) {
    forall name :: name in b.macs && name !in e.macs ==> name in a.macs && a.macs[name] == b.macs[name]
  }

  predicate Writable(nodes: seq<Json>, host: string) {
    LastNode(nodes, host).Some? && Network(LastNode(nodes, host).value).Some?
  }

  /** Extracting from the re-rendered list finds the same hosts. For a host of the existing list it
      finds the details it had found there, and where it had found nothing what was rendered;
      addresses are lost exactly in a node with a malformed network. Other hosts are untouched. */
  lemma DetailsSurvive(existing: seq<Json>, before: seq<Json>, after: seq<Json>, host: string)
    requires Carried(Details(existing), before, after)
    ensures host in Details(after) <==> host in Details(before)
    ensures host in Details(before) && host !in Details(existing) ==> Details(after)[host] == Details(before)[host]
    ensures host in Details(before) && host in Details(existing) ==>
      var e, b, a := Details(existing)[host], Details(before)[host], Details(after)[host];
      && ReadsBack(e, b, a) && KeepsMacs(e, b, a)
      && (HasMacs(e, a) <==> e.macs == map[] || Writable(before, host))
  {
    hide Assigned, ExtractNode, ReadsBack, HasMacs, KeepsMacs, Network;
    DetailsOfLast(existing, host);
    DetailsOfLast(before, host);
    DetailsOfLast(after, host);
    LastIsCarried(Details(existing), before, after, host);
    if host in Details(before) && host in Details(existing) {
      SurvivesIn(LastNode(before, host).value, Details(existing)[host], LastNode(after, host).value);
    }
  }

  lemma SurvivesIn(node: Fields, e: Info, result: Fields)
    requires Assigned(node, e, result)
    ensures ReadsBack(e, ExtractNode(node), ExtractNode(result))
    ensures HasMacs(e, ExtractNode(result)) <==> e.macs == map[] || Network(node).Some?
    ensures KeepsMacs(e, ExtractNode(node), ExtractNode(result))
  {
    hide Assigned, ReadsBack, Network;
    AssignedIsExtracted(node, e, result);
    forall name
      ensures MacAt(Interfaces(result), name) ==
        if name in ExtractNode(result).macs then Some(ExtractNode(result).macs[name]) else None
    {
    }
    forall name | name in ExtractNode(node).macs && name !in e.macs
      ensures name in ExtractNode(result).macs && ExtractNode(result).macs[name] == ExtractNode(node).macs[name]
    {
      assert MacAt(Interfaces(result), name) == MacAt(Interfaces(node), name);
    }
  }

  /** Carrying the same details over twice changes nothing the second time. */
  lemma CarriedTwice(infos: map<string, Info>, before: seq<Json>, once: seq<Json>, twice: seq<Json>)
    requires Carried(infos, before, once) && Carried(infos, once, twice)
    ensures twice == once
  {
    hide Assigned;
    forall i | 0 <= i < |before|
      ensures twice[i] == once[i]
    {
      assert CarriedNode(infos, before[i], once[i]) && CarriedNode(infos, once[i], twice[i]);
      CarriedHost(infos, before[i], once[i]);
      var host := HostOf(before[i]);
      if host.Some? && host.value in infos {
        AssignedTwice(before[i].fields, infos[host.value], once[i].fields, twice[i].fields);
      }
    }
  }
}
