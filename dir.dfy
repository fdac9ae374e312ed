/**
 * One directory of the file system, as `os.ReadDir` lists it: entries in
 * increasing name order, at most one per name. Writing a file and renaming one
 * are `Put` and `Remove` on that listing.
 */
module Dir {
  import opened Wrappers
  import opened Sorting

  /** What a name in the directory is. `Unopenable` is a file `os.Open` refuses. */
  datatype Node = File(text: string) | Unopenable | Folder

  datatype DirEntry = DirEntry(name: string, node: Node)

  /** The directory at the base path: absent, present but unreadable, or listed. */
  datatype DirState = Missing | Unreadable | Present(entries: seq<DirEntry>)

  /** The order `os.ReadDir` returns: increasing names, so no name twice. */
  predicate Ordered(es: seq<DirEntry>) {
    forall i, j :: 0 <= i < j < |es| ==> Less(es[i].name, es[j].name)
  }

  /** What the directory holds under `name`. */
  function Lookup(es: seq<DirEntry>, name: string): (r: Option<Node>)
    ensures r.Some? ==> exists i :: 0 <= i < |es| && es[i] == DirEntry(name, r.value)
    ensures r.None? ==> forall i :: 0 <= i < |es| ==> es[i].name != name
  {
    if es == [] then None
    else if es[0].name == name then Some(es[0].node)
    else
      var r := Lookup(es[1..], name);
      assert r.Some? ==> exists i :: 0 <= i < |es[1..]| && es[1..][i] == DirEntry(name, r.value);
      r
  }

  /** The listing after `name` is written with `node`, in its place in the order. */
  function Put(es: seq<DirEntry>, name: string, node: Node): (r: seq<DirEntry>)
    ensures forall i :: 0 <= i < |r| ==> r[i].name == name || exists j :: 0 <= j < |es| && es[j] == r[i]
  {
    if es == [] then [DirEntry(name, node)]
    else if es[0].name == name then [DirEntry(name, node)] + es[1..]
    else if Less(name, es[0].name) then [DirEntry(name, node)] + es
    else
      var t := Put(es[1..], name, node);
      assert forall i :: 0 <= i < |t| ==> t[i].name == name || exists j :: 0 <= j < |es| && es[j] == t[i] by {
        forall i | 0 <= i < |t| && t[i].name != name ensures exists j :: 0 <= j < |es| && es[j] == t[i] {
          var j :| 0 <= j < |es[1..]| && es[1..][j] == t[i];
          assert es[j + 1] == t[i];
        }
      }
      [es[0]] + t
  }

  /** The listing after `name` is taken away. */
  function Remove(es: seq<DirEntry>, name: string): (r: seq<DirEntry>)
    ensures forall i :: 0 <= i < |r| ==> r[i].name != name || exists j :: 0 <= j < |es| && es[j] == r[i]
    ensures forall i :: 0 <= i < |r| ==> exists j :: 0 <= j < |es| && es[j] == r[i]
  {
    if es == [] then []
    else if es[0].name == name then es[1..]
    else
      var t := Remove(es[1..], name);
      assert forall i :: 0 <= i < |t| ==> exists j :: 0 <= j < |es| && es[j] == t[i] by {
        forall i | 0 <= i < |t| ensures exists j :: 0 <= j < |es| && es[j] == t[i] {
          var j :| 0 <= j < |es[1..]| && es[1..][j] == t[i];
          assert es[j + 1] == t[i];
        }
      }
      [es[0]] + t
  }

  /** Writing a name keeps the listing in order. */
  lemma {:induction false} PutOrdered(es: seq<DirEntry>, name: string, node: Node)
    requires Ordered(es)
    ensures Ordered(Put(es, name, node))
  {
    if es != [] && es[0].name != name && !Less(name, es[0].name) {
      var t := Put(es[1..], name, node);
      assert Ordered(t) by { PutOrdered(es[1..], name, node); }
      assert Less(es[0].name, name) by { LessTotal(name, es[0].name); }
      forall j | 0 <= j < |t| ensures Less(es[0].name, t[j].name) {
        if t[j].name != name {
          var k :| 0 <= k < |es[1..]| && es[1..][k] == t[j];
          assert es[k + 1] == t[j];
        }
      }
      ConsOrdered(es[0], t);
    } else if es != [] && es[0].name != name {
      forall j | 0 <= j < |es| ensures Less(name, es[j].name) {
        if j > 0 {
          LessTransitive(name, es[0].name, es[j].name);
        }
      }
      ConsOrdered(DirEntry(name, node), es);
    }
  }

  /** An entry below every name of an ordered listing can go in front of it. */
  lemma ConsOrdered(e: DirEntry, es: seq<DirEntry>)
    requires Ordered(es)
    requires forall j :: 0 <= j < |es| ==> Less(e.name, es[j].name)
    ensures Ordered([e] + es)
  {
    var r := [e] + es;
    forall i, j | 0 <= i < j < |r| ensures Less(r[i].name, r[j].name) {
      if i == 0 {
        assert r[j] == es[j - 1];
      } else {
        assert r[i] == es[i - 1] && r[j] == es[j - 1];
      }
    }
  }

  /** Taking a name away keeps the listing in order. */
  lemma {:induction false} RemoveOrdered(es: seq<DirEntry>, name: string)
    requires Ordered(es)
    ensures Ordered(Remove(es, name))
  {
    if es != [] && es[0].name != name {
      RemoveOrdered(es[1..], name);
      var t := Remove(es[1..], name);
      forall j | 0 <= j < |t| ensures Less(es[0].name, t[j].name) {
        var k :| 0 <= k < |es[1..]| && es[1..][k] == t[j];
        assert es[k + 1] == t[j];
      }
    }
  }

  /** After a write, the name holds the new node and every other name what it held. */
  lemma {:induction false} LookupPut(es: seq<DirEntry>, name: string, node: Node, other: string)
    ensures Lookup(Put(es, name, node), other) == if other == name then Some(node) else Lookup(es, other)
  {
    if es != [] && es[0].name != name && !Less(name, es[0].name) {
      LookupPut(es[1..], name, node, other);
    }
  }

  /** After a removal, the name holds nothing and every other name what it held. */
  lemma {:induction false} LookupRemove(es: seq<DirEntry>, name: string, other: string)
    requires Ordered(es)
    ensures Lookup(Remove(es, name), other) == if other == name then None else Lookup(es, other)
  {
    if es != [] {
      if es[0].name == name {
        if other == name {
          forall j | 0 < j < |es| ensures es[j].name != name {
            LessIrreflexive(name);
          }
          LookupAbsent(es[1..], name);
        }
      } else {
        LookupRemove(es[1..], name, other);
      }
    }
  }

  lemma LookupAbsent(es: seq<DirEntry>, name: string)
    requires forall j :: 0 <= j < |es| ==> es[j].name != name
    ensures Lookup(es, name) == None
  {
  }

  /** Every name of the listing holds what is listed under it. */
  lemma {:induction false} LookupNames(es: seq<DirEntry>)
    requires Ordered(es)
    ensures forall i :: 0 <= i < |es| ==> Lookup(es, es[i].name) == Some(es[i].node)
    decreases |es|
  {
    if es != [] {
      LookupNames(es[1..]);
      forall i | 0 < i < |es| ensures Lookup(es, es[i].name) == Some(es[i].node) {
        LessIrreflexive(es[0].name);
        assert es[1..][i - 1] == es[i];
      }
    }
  }

  /** The first names of two ordered listings naming each other's first entry agree. */
  lemma HeadsAgree(a: seq<DirEntry>, b: seq<DirEntry>)
    requires Ordered(a) && Ordered(b) && a != [] && b != []
    requires Lookup(b, a[0].name).Some? && Lookup(a, b[0].name).Some?
    ensures a[0].name == b[0].name
  {
    var na, nb := a[0].name, b[0].name;
    var i :| 0 <= i < |b| && b[i] == DirEntry(na, Lookup(b, na).value);
    var j :| 0 <= j < |a| && a[j] == DirEntry(nb, Lookup(a, nb).value);
    LessTotal(na, nb);
  }

  /** Past a shared first name, two listings agreeing everywhere agree on their tails. */
  lemma TailsAgree(a: seq<DirEntry>, b: seq<DirEntry>)
    requires Ordered(a) && Ordered(b) && a != [] && b != [] && a[0].name == b[0].name
    requires forall n :: Lookup(a, n) == Lookup(b, n)
    ensures forall n :: Lookup(a[1..], n) == Lookup(b[1..], n)
  {
    var na := a[0].name;
    forall n ensures Lookup(a[1..], n) == Lookup(b[1..], n) {
      if n == na {
        forall j | 0 < j < |a| ensures a[j].name != na {
          LessIrreflexive(na);
        }
        forall j | 0 < j < |b| ensures b[j].name != na {
          LessIrreflexive(na);
        }
        LookupAbsent(a[1..], na);
        LookupAbsent(b[1..], na);
      } else {
        assert Lookup(a, n) == Lookup(a[1..], n);
        assert Lookup(b, n) == Lookup(b[1..], n);
      }
    }
  }

  /** Two ordered listings that hold the same thing under every name are the same listing. */
  lemma {:induction false} OrderedExtensional(a: seq<DirEntry>, b: seq<DirEntry>)
    requires Ordered(a) && Ordered(b)
    requires forall n :: Lookup(a, n) == Lookup(b, n)
    ensures a == b
    decreases |a|
  {
    LookupNames(a);
    LookupNames(b);
    if a != [] {
      assert Lookup(b, a[0].name).Some?;
    }
    if b != [] {
      assert Lookup(a, b[0].name).Some?;
    }
    if a != [] && b != [] {
      HeadsAgree(a, b);
      assert a[0] == b[0];
      TailsAgree(a, b);
      OrderedExtensional(a[1..], b[1..]);
    }
  }

  // ---------------------------------------------------------------------------
  // `os.Rename` inside the directory

  /**
   * The listing after `from` is renamed to `to`, or `None` when the rename
   * fails: the directory is not listed, `from` does not exist, or `to` is a
   * folder. A file already under `to` is replaced.
   */
  function RenameSpec(d: DirState, from: string, to: string): Option<DirState> {
    match d
    case Present(es) =>
      (match Lookup(es, from)
       case None => None
       case Some(node) =>
         if from == to then Some(d)
         else if Lookup(es, to) == Some(Folder) then None
         else Some(Present(Put(Remove(es, from), to, node))))
    case _ => None
  }

  /** After a rename `to` holds what `from` held, `from` holds nothing, and the rest is as it was. */
  lemma RenameEffect(es: seq<DirEntry>, from: string, to: string, n: string)
    requires Ordered(es) && from != to
    requires RenameSpec(Present(es), from, to).Some?
    ensures RenameSpec(Present(es), from, to).value.Present?
    ensures var es' := RenameSpec(Present(es), from, to).value.entries;
      && Ordered(es')
      && Lookup(es', n) == (if n == to then Lookup(es, from) else if n == from then None else Lookup(es, n))
  {
    var node := Lookup(es, from).value;
    RemoveOrdered(es, from);
    PutOrdered(Remove(es, from), to, node);
    LookupPut(Remove(es, from), to, node, n);
    LookupRemove(es, from, n);
  }

  /** Renaming back a file whose name was free before restores the listing. */
  lemma RenameBackRestores(es: seq<DirEntry>, es1: seq<DirEntry>, from: string, to: string, node: Node)
    requires Ordered(es) && Ordered(es1) && from != to
    requires Lookup(es, from) == Some(node) && Lookup(es, to) == None
    requires forall n :: Lookup(es1, n) == (if n == to then Some(node) else if n == from then None else Lookup(es, n))
    ensures Put(Remove(es1, to), from, node) == es
  {
    var es2 := Put(Remove(es1, to), from, node);
    RemoveOrdered(es1, to);
    PutOrdered(Remove(es1, to), from, node);
    forall n ensures Lookup(es2, n) == Lookup(es, n) {
      LookupPut(Remove(es1, to), from, node, n);
      LookupRemove(es1, to, n);
    }
    OrderedExtensional(es2, es);
  }

  /**
   * `os.WriteFile` into the directory: it fails when the directory is not
   * listed or the name is a folder; a name holding `/` lies inside a
   * sub-directory, whose contents are not part of the model, and is taken as a
   * failed write; otherwise the name holds a file with `text`, replacing any
   * file there.
   */
  function WriteSpec(d: DirState, name: string, text: string): Option<DirState> {
    match d
    case Present(es) =>
      if Lookup(es, name) == Some(Folder) || '/' in name then None
      else Some(Present(Put(es, name, File(text))))
    case _ => None
  }

  /** After a write the name holds the text, every other name what it held, in order. */
  lemma WriteEffect(es: seq<DirEntry>, name: string, text: string, n: string)
    requires Ordered(es)
    requires WriteSpec(Present(es), name, text).Some?
    ensures WriteSpec(Present(es), name, text).value.Present?
    ensures var es' := WriteSpec(Present(es), name, text).value.entries;
      && Ordered(es')
      && Lookup(es', n) == (if n == name then Some(File(text)) else Lookup(es, n))
  {
    PutOrdered(es, name, File(text));
    LookupPut(es, name, File(text), n);
  }

  /** The directory a manager works in, which writes and renames change in place. */
  class Directory {
    var state: DirState

    constructor(state: DirState)
      ensures this.state == state
    {
      this.state := state;
    }

    /** `os.Stat` of the directory itself does not report it missing. */
    method Exists() returns (b: bool)
      ensures b <==> !state.Missing?
    {
      b := !state.Missing?;
    }

    /** `os.Stat` of a name in the directory succeeds. */
    method Stat(name: string) returns (found: bool)
      ensures found <==> state.Present? && Lookup(state.entries, name).Some?
    {
      found := state.Present? && Lookup(state.entries, name).Some?;
    }

    /** `os.WriteFile` of a name in this directory. */
    method WriteFile(name: string, text: string) returns (ok: bool)
      modifies this
      ensures ok == WriteSpec(old(state), name, text).Some?
      ensures state == if ok then WriteSpec(old(state), name, text).value else old(state)
    {
      var next := WriteSpec(state, name, text);
      ok := next.Some?;
      if ok {
        state := next.value;
      }
    }

    /** `os.Rename` of two names in this directory. */
    method Rename(from: string, to: string) returns (ok: bool)
      modifies this
      ensures ok == RenameSpec(old(state), from, to).Some?
      ensures state == if ok then RenameSpec(old(state), from, to).value else old(state)
    {
      var next := RenameSpec(state, from, to);
      ok := next.Some?;
      if ok {
        state := next.value;
      }
    }
  }
}
