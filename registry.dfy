/** The name-to-handler dict each server builds with `add_tool_handler`: Python's
    insert-or-overwrite into a dict that keeps first-insertion order of keys.

    The pure functions below give the dict's state after a history of additions;
    class ToolRegistry holds the real fields and keeps them equal to those functions. */
module Registry {
  import opened Wrappers
  import opened ToolHandlers

  /** The dict's key order after adding `hs` one by one: a new name goes last,
      an existing name keeps its place. */
  function Names(hs: seq<ToolHandler>): seq<string>
  {
    if hs == [] then []
    else
      var prev := Names(hs[..|hs| - 1]);
      var n := hs[|hs| - 1].name;
      if n in prev then prev else prev + [n]
  }

  /** The entry stored under `n` after adding `hs` one by one. */
  function Latest(hs: seq<ToolHandler>, n: string): Option<ToolHandler>
  {
    if hs == [] then None
    else if hs[|hs| - 1].name == n then Some(hs[|hs| - 1])
    else Latest(hs[..|hs| - 1], n)
  }

  /** The dict's entries after adding `hs` one by one. */
  function Table(hs: seq<ToolHandler>): map<string, ToolHandler>
  {
    if hs == [] then map[]
    else Table(hs[..|hs| - 1])[hs[|hs| - 1].name := hs[|hs| - 1]]
  }

  /** Some handler named `n` was added. */
  ghost predicate Registered(hs: seq<ToolHandler>, n: string)
  {
    exists i :: 0 <= i < |hs| && hs[i].name == n
  }

  /** The position of the first addition named `n`, or `|hs|` when there is none. */
  function FirstIndex(hs: seq<ToolHandler>, n: string): (k: nat)
    ensures k <= |hs|
    ensures k < |hs| ==> hs[k].name == n
    ensures forall j :: 0 <= j < k ==> hs[j].name != n
  {
    if hs == [] then 0
    else if hs[0].name == n then 0
    else 1 + FirstIndex(hs[1..], n)
  }

  lemma {:induction false} LatestNoneIff(hs: seq<ToolHandler>, n: string)
    ensures Latest(hs, n).None? <==> !Registered(hs, n)
  {
    if hs != [] {
      var init := hs[..|hs| - 1];
      LatestNoneIff(init, n);
      if hs[|hs| - 1].name == n {
        assert Registered(hs, n);
      } else {
        if Registered(hs, n) {
          var i :| 0 <= i < |hs| && hs[i].name == n;
          assert init[i].name == n;
        }
        if Registered(init, n) {
          var i :| 0 <= i < |init| && init[i].name == n;
          assert hs[i].name == n;
        }
      }
    }
  }

  /** The stored entry is the last handler added under that name. */
  lemma {:induction false} LatestIsLastAdded(hs: seq<ToolHandler>, n: string)
    requires Registered(hs, n)
    ensures exists i :: 0 <= i < |hs| && hs[i].name == n && Latest(hs, n) == Some(hs[i])
                        && forall j :: i < j < |hs| ==> hs[j].name != n
  {
    var last := |hs| - 1;
    if hs[last].name == n {
      assert Latest(hs, n) == Some(hs[last]);
    } else {
      var init := hs[..last];
      var i0 :| 0 <= i0 < |hs| && hs[i0].name == n;
      assert init[i0].name == n;
      LatestIsLastAdded(init, n);
      var i :| 0 <= i < |init| && init[i].name == n && Latest(init, n) == Some(init[i])
                && forall j :: i < j < |init| ==> init[j].name != n;
      assert hs[i] == init[i];
      forall j | i < j < |hs| ensures hs[j].name != n {
        if j < last { assert hs[j] == init[j]; }
      }
    }
  }

  /** A name is a key exactly when a handler of that name was added. */
  lemma {:induction false} NamesMember(hs: seq<ToolHandler>, n: string)
    ensures n in Names(hs) <==> Registered(hs, n)
  {
    if hs != [] {
      var init := hs[..|hs| - 1];
      NamesMember(init, n);
      if hs[|hs| - 1].name == n {
        assert Registered(hs, n);
      } else {
        if Registered(hs, n) {
          var i :| 0 <= i < |hs| && hs[i].name == n;
          assert init[i].name == n;
        }
        if Registered(init, n) {
          var i :| 0 <= i < |init| && init[i].name == n;
          assert hs[i].name == n;
        }
      }
    }
  }

  /** No name appears twice among the keys. */
  lemma {:induction false} NamesDistinct(hs: seq<ToolHandler>)
    ensures forall i, j :: 0 <= i < j < |Names(hs)| ==> Names(hs)[i] != Names(hs)[j]
  {
    if hs != [] {
      NamesDistinct(hs[..|hs| - 1]);
    }
  }

  lemma FirstIndexOfPrefix(init: seq<ToolHandler>, h: ToolHandler, n: string)
    ensures FirstIndex(init, n) < |init| ==> FirstIndex(init + [h], n) == FirstIndex(init, n)
    ensures FirstIndex(init, n) == |init| && h.name == n ==> FirstIndex(init + [h], n) == |init|
  {
    var hs := init + [h];
    var k' := FirstIndex(init, n);
    if k' < |init| {
      assert hs[k'] == init[k'];
    } else if h.name == n {
      assert hs[|init|].name == n;
    }
  }

  /** Keys appear in the order in which their names were first added. */
  lemma {:induction false} NamesInFirstAddedOrder(hs: seq<ToolHandler>)
    ensures forall i, j :: 0 <= i < j < |Names(hs)| ==>
              FirstIndex(hs, Names(hs)[i]) < FirstIndex(hs, Names(hs)[j]) < |hs|
  {
    if hs != [] {
      var init, h := hs[..|hs| - 1], hs[|hs| - 1];
      assert init + [h] == hs;
      NamesInFirstAddedOrder(init);
      var prev := Names(init);
      forall i, j | 0 <= i < j < |Names(hs)|
        ensures FirstIndex(hs, Names(hs)[i]) < FirstIndex(hs, Names(hs)[j]) < |hs|
      {
        NamesMember(init, prev[i]);
        FirstIndexOfPrefix(init, h, prev[i]);
        if j < |prev| {
          NamesMember(init, prev[j]);
          FirstIndexOfPrefix(init, h, prev[j]);
        } else {
          NamesMember(init, h.name);
          FirstIndexOfPrefix(init, h, h.name);
        }
      }
    }
  }

  /** The dict's keys are its key order's names, and each entry is the last
      handler added under its name. */
  lemma {:induction false} TableAgrees(hs: seq<ToolHandler>)
    ensures forall n :: n in Table(hs) <==> n in Names(hs)
    ensures forall n :: Latest(hs, n) == if n in Table(hs) then Some(Table(hs)[n]) else None
  {
    if hs != [] {
      TableAgrees(hs[..|hs| - 1]);
    }
  }

  /** One more addition: the new handler is stored under its name, every other
      name keeps its entry, and the key order grows only by a new name. */
  lemma AddThenGet(hs: seq<ToolHandler>, h: ToolHandler)
    ensures Table(hs + [h]) == Table(hs)[h.name := h]
    ensures Latest(hs + [h], h.name) == Some(h)
    ensures forall n :: n != h.name ==> Latest(hs + [h], n) == Latest(hs, n)
    ensures Names(hs + [h]) == if Registered(hs, h.name) then Names(hs) else Names(hs) + [h.name]
  {
    assert (hs + [h])[..|hs|] == hs;
    NamesMember(hs, h.name);
  }

  /** A handler dict, its keys in insertion order. */
  function ValuesOf(keys: seq<string>, m: map<string, ToolHandler>): (vs: seq<ToolHandler>)
    requires forall k :: k in keys ==> k in m
    ensures |vs| == |keys|
    ensures forall i :: 0 <= i < |keys| ==> vs[i] == m[keys[i]]
  {
    if keys == [] then [] else [m[keys[0]]] + ValuesOf(keys[1..], m)
  }

  /** The `tool_handlers` dict of one server. */
  class ToolRegistry {
    /** Every handler passed to AddToolHandler so far, in call order. */
    ghost var added: seq<ToolHandler>
    /** The dict's keys in insertion order. */
    var names: seq<string>
    /** The dict's entries. */
    var handlers: map<string, ToolHandler>

    ghost predicate Valid()
      reads this
    {
      && names == Names(added)
      && handlers == Table(added)
    }

    /** A new, empty handler dict with no additions so far. */
    constructor ()
      ensures Valid()
      ensures added == [] && names == [] && handlers == map[]
    {
      added, names, handlers := [], [], map[];
    }

    /** `add_tool_handler`: stores the handler under its own name, overwriting an
        earlier entry of that name; a new name joins the end of the key order. */
    method AddToolHandler(h: ToolHandler)
      requires Valid()
      modifies this
      ensures Valid()
      ensures added == old(added) + [h]
      ensures handlers == old(handlers)[h.name := h]
      ensures names == if h.name in old(handlers) then old(names) else old(names) + [h.name]
    {
      TableAgrees(added);
      assert (added + [h])[..|added|] == added;
      if h.name !in handlers {
        names := names + [h.name];
      }
      handlers := handlers[h.name := h];
      added := added + [h];
    }

    /** `get_tool_handler(name)` (and `tool_handlers.get(name)`): `None` exactly when
        no handler of that name was added, otherwise the last one added. */
    function GetToolHandler(name: string): (r: Option<ToolHandler>)
      reads this
      requires Valid()
      ensures r.None? <==> !Registered(added, name)
      ensures r.Some? ==> r.value.name == name && r == Latest(added, name)
    {
      TableAgrees(added);
      LatestNoneIff(added, name);
      if name in handlers then
        LatestIsLastAdded(added, name);
        Some(handlers[name])
      else None
    }

    /** The dict's values: one handler per distinct added name, in the order
        the names were first added, each the last handler added under its name. */
    function Values(): (vs: seq<ToolHandler>)
      reads this
      requires Valid()
      ensures |vs| == |Names(added)|
      ensures forall i :: 0 <= i < |vs| ==> Latest(added, Names(added)[i]) == Some(vs[i])
    {
      TableAgrees(added);
      ValuesOf(names, handlers)
    }
  }
}
