/**
 Changed directories as the folder watcher reports them, and their normal form.

 A cleaned path is the sequence of its elements, so "inside" is "has as a prefix"; where the system ignores case, the
 elements are folded, and the order the sort gives is the order of the spelling.
 */
module DirtyDirectories {

  type Path = seq<string>

  datatype Dir = Dir(path: Path, recursive: bool)

  /** Whether a scan of d reads the file at this path. */
  predicate Reads(d: Dir, file: Path) {
    file != [] &&
    if d.recursive then d.path <= file else d.path == file[..|file| - 1]
  }

  /** Whether reading e makes reading d unnecessary. */
  predicate Covers(e: Dir, d: Dir) {
    if e.recursive then e.path <= d.path else !d.recursive && e.path == d.path
  }

  ghost predicate Covered(d: Dir, dirs: set<Dir>) {
    exists e :: e in dirs && Covers(e, d)
  }

  ghost function Elements(dirs: seq<Dir>): set<Dir> {
    set d | d in dirs
  }

  /** The entries no other entry covers. */
  ghost function Maximal(dirs: set<Dir>): set<Dir> {
    set d | d in dirs && forall e :: e in dirs && Covers(e, d) ==> e == d
  }

  lemma CoversIsTransitive(a: Dir, b: Dir, c: Dir)
    requires Covers(a, b) && Covers(b, c)
    ensures Covers(a, c)
  {
  }

  /** Covers is exactly containment of what the two scans read. */
  lemma CoversMeansReadsMore(e: Dir, d: Dir)
    ensures Covers(e, d) <==> forall file :: Reads(d, file) ==> Reads(e, file)
  {
    if Covers(e, d) {
      forall file | Reads(d, file) ensures Reads(e, file) {
        assert d.path <= file;
      }
    } else {
      // Files d reads: two directly inside, and one a level below when d is recursive.
      var near, other, far := d.path + ["a"], d.path + ["b"], d.path + ["a", "a"];
      assert near[..|near| - 1] == d.path && other[..|other| - 1] == d.path && far[..|far| - 1] == near;
      assert Reads(d, near) && Reads(d, other) && (d.recursive ==> Reads(d, far));
      assert near[|d.path|] != other[|d.path|];
      assert !Reads(e, near) || !Reads(e, other) || (d.recursive && !Reads(e, far));
    }
  }

  /** Normalising loses no directory: what any entry reads, some kept entry reads. */
  lemma {:induction false} MaximalCovers(dirs: set<Dir>, d: Dir)
    requires d in dirs
    ensures Covered(d, Maximal(dirs))
    decreases |d.path|, if d.recursive then 0 else 1
  {
    if d in Maximal(dirs) {
      assert Covers(d, d);
    } else {
      var e :| e in dirs && Covers(e, d) && e != d;
      MaximalCovers(dirs, e);
      var top :| top in Maximal(dirs) && Covers(top, e);
      CoversIsTransitive(top, e, d);
    }
  }

  lemma MaximalKeepsCoverage(dirs: set<Dir>, d: Dir)
    ensures Covered(d, dirs) <==> Covered(d, Maximal(dirs))
  {
    if Covered(d, dirs) {
      var e :| e in dirs && Covers(e, d);
      MaximalCovers(dirs, e);
      var top :| top in Maximal(dirs) && Covers(top, e);
      CoversIsTransitive(top, e, d);
    }
  }

  /**
   The order the sort gives: recursive entries first, and within one kind a path before the
   paths inside it (a prefix compares smaller).
   */
  predicate InOrder(a: Dir, b: Dir) {
    (b.recursive ==> a.recursive) &&
    (a.recursive == b.recursive && b.path <= a.path ==> a.path == b.path)
  }

  ghost predicate Sorted(dirs: seq<Dir>) {
    forall i, j :: 0 <= i < j < |dirs| ==> InOrder(dirs[i], dirs[j])
  }

  /** What the filter keeps of a prefix of the sorted entries. */
  ghost function Kept(cleaned: seq<Dir>): seq<Dir> {
    if cleaned == [] then []
    else
      var n := |cleaned| - 1;
      var kept := Kept(cleaned[..n]);
      if Covered(cleaned[n], Elements(kept)) then kept else kept + [cleaned[n]]
  }

  lemma MaximalOfCovered(seen: set<Dir>, last: Dir)
    requires Covered(last, seen)
    ensures Maximal(seen + {last}) == Maximal(seen)
  {
    MaximalKeepsCoverage(seen, last);
    var top :| top in Maximal(seen) && Covers(top, last);
    forall d | d in Maximal(seen) ensures d in Maximal(seen + {last}) {
      if Covers(last, d) {
        CoversIsTransitive(top, last, d);
      }
    }
    forall d | d in Maximal(seen + {last}) ensures d in Maximal(seen) {
      assert Covers(top, last);
    }
  }

  lemma MaximalOfUncovered(seen: set<Dir>, last: Dir)
    requires !Covered(last, seen) && forall e :: e in seen ==> !Covers(last, e)
    ensures Maximal(seen + {last}) == Maximal(seen) + {last}
  {
  }

  /** Nothing sorted before last can be covered by it. */
  lemma LastCoversNothing(before: seq<Dir>, last: Dir)
    requires Sorted(before + [last]) && !Covered(last, Elements(before))
    ensures forall e :: e in Elements(before) ==> !Covers(last, e)
  {
    var all := before + [last];
    forall e | e in Elements(before) ensures !Covers(last, e) {
      var i :| 0 <= i < |before| && before[i] == e;
      assert InOrder(all[i], all[|before|]);
      assert Covers(last, e) ==> Covers(e, last);
    }
  }

  lemma {:induction false} KeptIsMaximal(cleaned: seq<Dir>)
    requires Sorted(cleaned)
    ensures Elements(Kept(cleaned)) == Maximal(Elements(cleaned))
    ensures forall i, j :: 0 <= i < j < |Kept(cleaned)| ==> Kept(cleaned)[i] != Kept(cleaned)[j]
  {
    if cleaned != [] {
      var n := |cleaned| - 1;
      var before, last := cleaned[..n], cleaned[n];
      KeptIsMaximal(before);
      var seen := Elements(before);
      assert cleaned == before + [last];
      assert Elements(cleaned) == seen + {last};
      MaximalKeepsCoverage(seen, last);
      if Covered(last, seen) {
        MaximalOfCovered(seen, last);
      } else {
        LastCoversNothing(before, last);
        MaximalOfUncovered(seen, last);
        assert Elements(Kept(before) + [last]) == Elements(Kept(before)) + {last};
        assert Covers(last, last);
      }
    }
  }

  /** Some of the entries that cover all of them. */
  ghost predicate NormalForm(out: set<Dir>, dirs: set<Dir>) {
    out <= dirs && forall d | d in dirs :: Covered(d, out)
  }

  /** A normal form covers exactly what the entries cover. */
  lemma NormalFormCovers(out: set<Dir>, dirs: set<Dir>, d: Dir)
    requires NormalForm(out, dirs)
    ensures Covered(d, out) <==> Covered(d, dirs)
  {
    if Covered(d, dirs) {
      var e :| e in dirs && Covers(e, d);
      var top :| top in out && Covers(top, e);
      CoversIsTransitive(top, e, d);
    }
  }

  lemma NormalFormNonempty(out: set<Dir>, dirs: set<Dir>)
    requires NormalForm(out, dirs) && dirs != {}
    ensures out != {}
  {
    var d :| d in dirs;
    assert Covered(d, out);
  }

  lemma {:induction false} KeptIsNormal(cleaned: seq<Dir>)
    ensures NormalForm(Elements(Kept(cleaned)), Elements(cleaned))
  {
    if cleaned != [] {
      var before, last := cleaned[..|cleaned| - 1], cleaned[|cleaned| - 1];
      KeptIsNormal(before);
      assert cleaned == before + [last];
      ElementsPush(before, last);
      ElementsPush(Kept(before), last);
      assert Covers(last, last);
    }
  }

  lemma ElementsPush(dirs: seq<Dir>, last: Dir)
    ensures Elements(dirs + [last]) == Elements(dirs) + {last}
  {
  }

  lemma {:induction false} KeptOnce(cleaned: seq<Dir>)
    ensures forall i, j :: 0 <= i < j < |Kept(cleaned)| ==> Kept(cleaned)[i] != Kept(cleaned)[j]
  {
    if cleaned != [] {
      KeptOnce(cleaned[..|cleaned| - 1]);
      assert Covers(cleaned[|cleaned| - 1], cleaned[|cleaned| - 1]);
    }
  }

  /**
   Keeps the entries that no earlier kept entry covers.  Whatever their order, what is kept is a normal form; it is the
   smallest one when the order puts a path before the paths inside it, as the sort does where paths are compared as
   they are spelled.
   */
  method Normalize(cleaned: seq<Dir>) returns (out: seq<Dir>)
    ensures NormalForm(Elements(out), Elements(cleaned))
    ensures forall d :: Covered(d, Elements(cleaned)) <==> Covered(d, Elements(out))
    ensures forall i, j :: 0 <= i < j < |out| ==> out[i] != out[j]
    ensures Sorted(cleaned) ==> Elements(out) == Maximal(Elements(cleaned))
  {
    out := [];
    for i := 0 to |cleaned|
      invariant out == Kept(cleaned[..i])
    {
      assert cleaned[..i + 1][..i] == cleaned[..i];
      if !exists kept :: kept in out && Covers(kept, cleaned[i]) {
        out := out + [cleaned[i]];
      }
    }
    assert cleaned[..|cleaned|] == cleaned;
    KeptIsNormal(cleaned);
    KeptOnce(cleaned);
    if Sorted(cleaned) {
      KeptIsMaximal(cleaned);
    }
    forall d ensures Covered(d, Elements(cleaned)) <==> Covered(d, Elements(out)) {
      NormalFormCovers(Elements(out), Elements(cleaned), d);
    }
  }

  /** Two spellings of one path sort apart from what is inside it: then a covered entry is kept. */
  lemma UnsortedKeepsCovered() returns (cleaned: seq<Dir>)
    ensures Elements(Kept(cleaned)) != Maximal(Elements(cleaned)) && NormalForm(Elements(Kept(cleaned)), Elements(cleaned))
  {
    var inside, whole := Dir(["c:", "a", "b"], true), Dir(["c:", "a"], true);
    cleaned := [inside, whole];
    KeptIsNormal(cleaned);
    assert cleaned[..1] == [inside] && cleaned[..0] == [];
    assert Kept([inside]) == [inside] by {
      assert [inside][..0] == [];
    }
    assert !Covers(inside, whole) && Covers(whole, inside);
    assert Kept(cleaned) == [inside, whole];
    assert whole in Elements(cleaned) && inside in Elements(Kept(cleaned)) && inside !in Maximal(Elements(cleaned));
  }

  /** The smallest normal form: no other has fewer entries left out. */
  lemma MaximalIsSmallest(out: set<Dir>, dirs: set<Dir>)
    requires NormalForm(out, dirs)
    ensures NormalForm(Maximal(dirs), dirs) && Maximal(dirs) <= out
  {
    forall d | d in dirs ensures Covered(d, Maximal(dirs)) {
      MaximalCovers(dirs, d);
    }
    forall d | d in Maximal(dirs) ensures d in out {
      var e :| e in out && Covers(e, d);
    }
  }
}
