// Writing several files at once: prepare every new content beside its target, replace the targets one
// after another, and roll back when anything fails.
module AtomicWrite {
  import opened Basics

  datatype Write = Write(path: string, content: string)

  /** What the files are once these writes have been installed, in order. */
  function Installed(files: map<string, string>, writes: seq<Write>): map<string, string> {
    if writes == [] then files
    else Installed(files, writes[..|writes| - 1])[writes[|writes| - 1].path := writes[|writes| - 1].content]
  }

  predicate Targets(writes: seq<Write>, path: string) {
    exists w :: w in writes && w.path == path
  }

  /** Two file maps differ on the targets of these writes at most. */
  ghost predicate AgreeBeside(a: map<string, string>, b: map<string, string>, writes: seq<Write>) {
    forall path :: !Targets(writes, path) ==> Get(a, path) == Get(b, path)
  }

  lemma {:induction false} InstallingTouchesTargets(files: map<string, string>, writes: seq<Write>)
    ensures AgreeBeside(Installed(files, writes), files, writes)
  {
    if writes != [] {
      var n := |writes| - 1;
      InstallingTouchesTargets(files, writes[..n]);
      forall path | !Targets(writes, path)
        ensures Get(Installed(files, writes), path) == Get(files, path)
      {
        assert writes[n] in writes;
        assert !Targets(writes[..n], path);
      }
    }
  }

  /** Every target ends with the content of its last write, every other file as it was. */
  lemma {:induction false} InstalledContent(files: map<string, string>, writes: seq<Write>, i: nat)
    requires i < |writes| && forall k :: i < k < |writes| ==> writes[k].path != writes[i].path
    ensures Get(Installed(files, writes), writes[i].path) == Some(writes[i].content)
  {
    if i < |writes| - 1 {
      InstalledContent(files, writes[..|writes| - 1], i);
    }
  }

  lemma AgreeEverywhere(a: map<string, string>, b: map<string, string>)
    requires AgreeBeside(a, b, [])
    ensures a == b
  {
    forall path
      ensures Get(a, path) == Get(b, path)
    {
      assert !Targets([], path);
    }
    assert forall path :: path in a <==> Get(a, path).Some?;
    assert forall path :: path in b <==> Get(b, path).Some?;
    assert forall path :: path in a ==> Get(a, path) == Get(b, path);
  }

  /** Undoing the last write leaves differences on the targets of the others only. */
  lemma UndoneOne(files: map<string, string>, before: map<string, string>, after: map<string, string>,
                  writes: seq<Write>)
    requires writes != [] && AgreeBeside(files, before, writes)
    requires forall path :: path != writes[|writes| - 1].path ==> Get(after, path) == Get(files, path)
    requires Get(after, writes[|writes| - 1].path) == Get(before, writes[|writes| - 1].path)
    ensures AgreeBeside(after, before, writes[..|writes| - 1])
  {
    var n := |writes| - 1;
    forall path | !Targets(writes[..n], path)
      ensures Get(after, path) == Get(before, path)
    {
      if path != writes[n].path {
        forall w | w in writes
          ensures w.path != path
        {
          assert w in writes[..n] || w == writes[n];
        }
      }
    }
  }

  /** A file system whose operations fail at the instants `failing` picks, one instant for each operation.
      Temporary files live apart from the files the project has. */
  class FileSystem {
    const failing: nat -> bool
    var clock: nat
    var files: map<string, string>
    var temps: map<nat, string>

    constructor (failing: nat -> bool, files: map<string, string>)
      ensures this.failing == failing && this.files == files && temps == map[]
    {
      this.failing, this.files, temps, clock := failing, files, map[], 0;
    }

    /** No instant in between fails. */
    predicate Smooth(from: nat, to: nat) {
      forall n :: from <= n < to ==> !failing(n)
    }

    /** `n` operations ran from one instant on, up to the first failing one. */
    predicate Ran(from: nat, to: nat, n: nat, ok: bool) {
      if ok then to == from + n && Smooth(from, to)
      else from < to <= from + n && failing(to - 1) && Smooth(from, to - 1)
    }

    method Succeeds() returns (ok: bool)
      modifies `clock
      ensures clock == old(clock) + 1 && Ran(old(clock), clock, 1, ok)
    {
      ok := !failing(clock);
      clock := clock + 1;
    }

    /** Make the parent directory, read the target, make a temporary file and write into it; when that write
        fails the file is left behind incomplete. */
    method Prepare(id: nat, write: Write) returns (ok: bool, original: Option<string>)
      modifies `clock, `temps
      ensures Ran(old(clock), clock, 4, ok)
      ensures ok ==> temps == old(temps)[id := write.content] && original == Get(files, write.path)
      ensures temps.Keys <= old(temps).Keys + {id}
      ensures forall k :: k in old(temps) && k != id ==> k in temps && temps[k] == old(temps)[k]
    {
      original := Get(files, write.path);
      ok := Succeeds();
      if !ok {
        return;
      }
      ok := Succeeds();
      if !ok {
        return;
      }
      ok := Succeeds();
      if !ok {
        return;
      }
      ok := Succeeds();
      temps := temps[id := if ok then write.content else ""];
    }

    method Replace(id: nat, path: string) returns (ok: bool)
      requires id in temps
      modifies this
      ensures Ran(old(clock), clock, 1, ok)
      ensures ok ==> files == old(files)[path := old(temps)[id]] && temps == old(temps) - {id}
      ensures !ok ==> files == old(files) && temps == old(temps)
    {
      ok := Succeeds();
      if ok {
        files := files[path := temps[id]];
        temps := temps - {id};
      }
    }

    method Restore(path: string, original: Option<string>) returns (ok: bool)
      modifies `clock, `files
      ensures Ran(old(clock), clock, 1, ok)
      ensures ok ==> Get(files, path) == original && forall other :: other != path ==>
                Get(files, other) == Get(old(files), other)
      ensures !ok ==> files == old(files)
    {
      ok := Succeeds();
      if ok {
        match original {
          case None => files := files - {path};
          case Some(content) => files := files[path := content];
        }
      }
    }

    method Discard(id: nat) returns (ok: bool)
      modifies `clock, `temps
      ensures Ran(old(clock), clock, 1, ok)
      ensures temps == if ok then old(temps) - {id} else old(temps)
    {
      ok := Succeeds();
      if ok {
        temps := temps - {id};
      }
    }

    /** Prepare a temporary file for every write, and note what each target holds. `created` counts the
        temporary files that may exist. */
    method PrepareAll(writes: seq<Write>) returns (ok: bool, originals: seq<Option<string>>, created: nat)
      requires temps == map[]
      modifies `clock, `temps
      ensures Ran(old(clock), clock, 4 * |writes|, ok) && created <= |writes|
      ensures ok ==> |originals| == created == |writes|
      ensures ok ==> forall i :: 0 <= i < |writes| ==> originals[i] == Get(files, writes[i].path)
      ensures ok ==> forall i :: 0 <= i < |writes| ==> i in temps && temps[i] == writes[i].content
      ensures forall k :: k in temps ==> k < created
    {
      originals, created, ok := [], 0, true;
      while created < |writes|
        invariant created <= |writes| && ok && |originals| == created
        invariant Ran(old(clock), clock, 4 * created, true)
        invariant forall i :: 0 <= i < created ==> originals[i] == Get(files, writes[i].path)
        invariant forall i :: 0 <= i < created ==> i in temps && temps[i] == writes[i].content
        invariant forall k :: k in temps ==> k < created
      {
        var original;
        ok, original := Prepare(created, writes[created]);
        originals := originals + [original];
        created := created + 1;
        if !ok {
          return;
        }
      }
    }

    /** Move the temporary files over their targets, in order; `replaced` counts the targets done. */
    method ReplaceAll(writes: seq<Write>) returns (ok: bool, replaced: nat)
      requires forall i :: 0 <= i < |writes| ==> i in temps && temps[i] == writes[i].content
      requires forall k :: k in temps ==> k < |writes|
      modifies this
      ensures Ran(old(clock), clock, |writes|, ok)
      ensures replaced <= |writes| && files == Installed(old(files), writes[..replaced])
      ensures ok ==> replaced == |writes| && temps == map[]
      ensures forall k :: k in temps ==> k < |writes|
    {
      replaced, ok := 0, true;
      while replaced < |writes|
        invariant replaced <= |writes| && ok && files == Installed(old(files), writes[..replaced])
        invariant Ran(old(clock), clock, replaced, true)
        invariant forall i :: replaced <= i < |writes| ==> i in temps && temps[i] == writes[i].content
        invariant forall k :: k in temps ==> replaced <= k < |writes|
      {
        ok := Replace(replaced, writes[replaced].path);
        if !ok {
          return;
        }
        assert writes[..replaced + 1][..replaced] == writes[..replaced];
        replaced := replaced + 1;
      }
      assert temps.Keys == {};
    }

    /** Restore the replaced targets, last first; failures are passed over. */
    method RestoreAll(writes: seq<Write>, originals: seq<Option<string>>, replaced: nat,
                      ghost before: map<string, string>)
      requires replaced <= |writes| && replaced <= |originals|
      requires forall i :: 0 <= i < replaced ==> originals[i] == Get(before, writes[i].path)
      requires AgreeBeside(files, before, writes[..replaced])
      modifies `clock, `files
      ensures clock == old(clock) + replaced
      ensures Smooth(old(clock), clock) ==> files == before
      ensures AgreeBeside(files, before, writes[..replaced])
    {
      var i := replaced;
      while i > 0
        invariant 0 <= i <= replaced && clock == old(clock) + replaced - i
        invariant Smooth(old(clock), clock) ==> AgreeBeside(files, before, writes[..i])
        invariant AgreeBeside(files, before, writes[..replaced])
      {
        i := i - 1;
        ghost var was, instant := files, clock;
        var ok := Restore(writes[i].path, originals[i]);
        assert writes[..i + 1][..i] == writes[..i] && writes[..i + 1][i] == writes[i];
        assert writes[i] in writes[..replaced];
        if Smooth(old(clock), clock) {
          assert !failing(instant) && Smooth(old(clock), instant);
          UndoneOne(was, before, files, writes[..i + 1]);
        }
      }
      if Smooth(old(clock), clock) {
        assert writes[..0] == [];
        AgreeEverywhere(files, before);
      }
    }

    /** Discard the temporary files that are still there; failures are passed over. */
    method DiscardAll(created: nat)
      requires forall k :: k in temps ==> k < created
      modifies `clock, `temps
      ensures old(clock) <= clock <= old(clock) + created
      ensures Smooth(old(clock), clock) ==> temps == map[]
    {
      for k := 0 to created
        invariant old(clock) <= clock <= old(clock) + k
        invariant forall id :: id in temps ==> id < created
        invariant Smooth(old(clock), clock) ==> forall id :: id in temps ==> k <= id
      {
        ghost var instant := clock;
        if k in temps {
          var ok := Discard(k);
          assert Smooth(old(clock), clock) ==> !failing(instant) && Smooth(old(clock), instant);
        }
      }
      if Smooth(old(clock), clock) {
        assert temps.Keys == {};
      }
    }

    /** `_write_prepared`: all or nothing, as the failures fall. It succeeds exactly when none of its
        operations fails, and then every new content is installed. When one fails and the rollback is spared,
        every file is as before and no temporary file is left. Even when the rollback fails as well, only
        targets of these writes can differ. */
    method WritePrepared(writes: seq<Write>) returns (ok: bool)
      requires temps == map[]
      modifies this
      ensures ok <==> Smooth(old(clock), old(clock) + 5 * |writes|)
      ensures ok ==> files == Installed(old(files), writes) && temps == map[]
      ensures forall t :: old(clock) <= t < old(clock) + 5 * |writes| && failing(t)
                          && Smooth(old(clock), t) && Smooth(t + 1, t + 1 + 2 * |writes|)
                ==> files == old(files) && temps == map[]
      ensures AgreeBeside(files, old(files), writes)
    {
      ghost var before := files;
      var originals, created, replaced := [], 0, 0;
      ok, originals, created := PrepareAll(writes);
      if ok {
        ok, replaced := ReplaceAll(writes);
      }
      InstallingTouchesTargets(before, writes[..replaced]);
      if ok {
        assert writes[..|writes|] == writes;
        FewerTargets(files, before, writes, replaced);
        return;
      }
      ghost var failed := clock - 1;
      assert failing(failed) && Smooth(old(clock), failed) && failed < old(clock) + 5 * |writes|;
      if replaced == 0 {
        assert writes[..replaced] == [];
      }
      RestoreAll(writes, originals, replaced, before);
      DiscardAll(created);
      FewerTargets(files, before, writes, replaced);
      forall t | old(clock) <= t && failing(t) && Smooth(old(clock), t)
        ensures t == failed
      {
        FirstFailure(old(clock), failed, t);
      }
    }

    lemma FirstFailure(from: nat, t: nat, u: nat)
      requires from <= t && failing(t) && Smooth(from, t)
      requires from <= u && failing(u) && Smooth(from, u)
      ensures t == u
    {
    }
  }

  lemma FewerTargets(a: map<string, string>, b: map<string, string>, writes: seq<Write>, n: nat)
    requires n <= |writes| && AgreeBeside(a, b, writes[..n])
    ensures AgreeBeside(a, b, writes)
  {
    forall path | !Targets(writes, path)
      ensures Get(a, path) == Get(b, path)
    {
      assert forall w :: w in writes[..n] ==> w in writes;
      assert !Targets(writes[..n], path);
    }
  }
}
