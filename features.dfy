/** The feature picker of the pen game: a catalog of twenty labels and an
    ordered selection of at most three of them, changed only by toggling. */
module Features {

  /** Largest number of features a player may hold. */
  const MaxSelected: nat := 3

  /** The fixed catalog the picker renders as buttons, in display order. */
  const Catalog: seq<string> := [
    "Smooth Grip", "Retractable Tip", "Ink Color Change", "Stylus End", "Clip-On Cap",
    "Pocket Clip", "Refillable Ink", "Erasable Ink", "LED Light", "Ruler Markings",
    "Laser Pointer", "Multi-color Ink", "Highlighter End", "Custom Logo", "Eco-friendly Material",
    "Lightweight Design", "Textured Body", "Matte Finish", "Glossy Finish", "Comfort Grip"
  ]

  /** No label occurs twice. */
  predicate NoDup(s: seq<string>) {
    forall i, j :: 0 <= i < j < |s| ==> s[i] != s[j]
  }

  /** The invariant the selection keeps: capped and duplicate-free. */
  predicate ValidSelection(s: seq<string>) {
    |s| <= MaxSelected && NoDup(s)
  }

  /** `s` with every occurrence of `f` filtered out, the rest in order. */
  function Remove(s: seq<string>, f: string): (r: seq<string>)
    ensures forall x :: x in r <==> x in s && x != f
    ensures |r| <= |s|
    ensures f in s ==> |r| < |s|
  {
    if s == [] then []
    else if s[0] == f then Remove(s[1..], f)
    else [s[0]] + Remove(s[1..], f)
  }

  /** The toggle handler: remove a held label, otherwise append it while
      fewer than three are held, otherwise leave the selection alone. */
  function Toggle(s: seq<string>, f: string): (r: seq<string>)
    ensures f in s ==> f !in r && (forall x :: x in r <==> x in s && x != f)
    ensures f !in s && |s| < MaxSelected ==> r == s + [f]
    ensures f !in s && |s| >= MaxSelected ==> r == s
  {
    if f in s then Remove(s, f)
    else if |s| < MaxSelected then s + [f]
    else s
  }

  /** The enabling condition of a catalog button: it is disabled when its
      label is already selected, or when three labels are held. */
  predicate ButtonEnabled(s: seq<string>, f: string)
    ensures ButtonEnabled(s, f) ==> f !in s && |s| != MaxSelected
  {
    !(f in s || (|s| == MaxSelected && f !in s))
  }

  /** The selection after pressing the buttons `fs` in order. */
  function ToggleAll(s: seq<string>, fs: seq<string>): seq<string>
    decreases |fs|
  {
    if fs == [] then s else ToggleAll(Toggle(s, fs[0]), fs[1..])
  }

  /** Filtering a label that is absent changes nothing. */
  lemma {:induction false} RemoveAbsent(s: seq<string>, f: string)
    requires f !in s
    ensures Remove(s, f) == s
  {
    if s != [] {
      RemoveAbsent(s[1..], f);
    }
  }

  /** In a duplicate-free selection, removing the label at position `i`
      closes the gap and keeps every other label in its relative order. */
  lemma {:induction false} RemoveAt(s: seq<string>, f: string, i: nat)
    requires NoDup(s) && i < |s| && s[i] == f
    ensures Remove(s, f) == s[..i] + s[i + 1..]
  {
    assert NoDup(s[1..]);
    if i == 0 {
      RemoveAbsent(s[1..], f);
    } else {
      assert s[0] != f;
      RemoveAt(s[1..], f, i - 1);
      assert s[1..][..i - 1] == s[1..i];
      assert s[1..][i..] == s[i + 1..];
      assert [s[0]] + s[1..i] == s[..i];
    }
  }

  /** Cutting one element out of a duplicate-free sequence leaves it duplicate-free. */
  lemma CutNoDup(s: seq<string>, i: nat)
    requires NoDup(s) && i < |s|
    ensures NoDup(s[..i] + s[i + 1..])
  {
    var r := s[..i] + s[i + 1..];
    forall a, b | 0 <= a < b < |r| ensures r[a] != r[b] {
      var a' := if a < i then a else a + 1;
      var b' := if b < i then b else b + 1;
      assert r[a] == s[a'] && r[b] == s[b'];
    }
  }

  /** A present label is removed exactly where it stands; the rest keep their order. */
  lemma ToggleRemovesInPlace(s: seq<string>, i: nat)
    requires NoDup(s) && i < |s|
    ensures Toggle(s, s[i]) == s[..i] + s[i + 1..]
  {
    RemoveAt(s, s[i], i);
  }

  /** Each toggle keeps the selection capped at three and duplicate-free. */
  lemma ToggleKeepsValid(s: seq<string>, f: string)
    requires ValidSelection(s)
    ensures ValidSelection(Toggle(s, f))
  {
    if f in s {
      var i :| 0 <= i < |s| && s[i] == f;
      RemoveAt(s, f, i);
      CutNoDup(s, i);
    }
  }

  /** After any sequence of toggles from a valid selection (the initial empty
      one included) at most three distinct labels are held; when every toggled
      label comes from the catalog, so does every held label. */
  lemma {:induction false} ToggleAllKeepsValid(s: seq<string>, fs: seq<string>)
    requires ValidSelection(s)
    ensures ValidSelection(ToggleAll(s, fs))
    ensures (forall x :: x in s ==> x in Catalog) && (forall f :: f in fs ==> f in Catalog)
            ==> forall x :: x in ToggleAll(s, fs) ==> x in Catalog
    decreases |fs|
  {
    if fs != [] {
      ToggleKeepsValid(s, fs[0]);
      ToggleAllKeepsValid(Toggle(s, fs[0]), fs[1..]);
      if (forall x :: x in s ==> x in Catalog) && (forall f :: f in fs ==> f in Catalog) {
        assert fs[0] in fs;
        assert forall f :: f in fs[1..] ==> f in fs;
      }
    }
  }

  /** Through the enabled buttons only the append branch is ever taken:
      on a valid selection a button is enabled exactly when its label is
      absent and fewer than three are held, and pressing it appends it. */
  lemma EnabledButtonAppends(s: seq<string>, f: string)
    requires |s| <= MaxSelected
    ensures ButtonEnabled(s, f) <==> f !in s && |s| < MaxSelected
    ensures ButtonEnabled(s, f) ==> Toggle(s, f) == s + [f]
  {
  }

  /** Appending a label and toggling it again restores the selection. */
  lemma ToggleUndoesAppend(s: seq<string>, f: string)
    requires f !in s && |s| < MaxSelected
    ensures Toggle(Toggle(s, f), f) == s
  {
    RemoveLast(s, f);
  }

  /** Removing the most recently added label and toggling it again restores the selection. */
  lemma ToggleUndoesRemoveOfLast(s: seq<string>)
    requires ValidSelection(s) && s != []
    ensures Toggle(Toggle(s, s[|s| - 1]), s[|s| - 1]) == s
  {
    var i := |s| - 1;
    RemoveAt(s, s[i], i);
    assert s[i + 1..] == [];
    assert s[..i] + [s[i]] == s;
  }

  /** Filtering the label just appended to a selection without it gives the selection back. */
  lemma {:induction false} RemoveLast(s: seq<string>, f: string)
    requires f !in s
    ensures Remove(s + [f], f) == s
  {
    if s == [] {
      assert [f][1..] == [];
    } else {
      assert (s + [f])[1..] == s[1..] + [f];
      RemoveLast(s[1..], f);
    }
  }
}
