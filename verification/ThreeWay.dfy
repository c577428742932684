/** The three-way merge that replaying a commit's delta onto another tip performs, and its algebra. */
module ThreeWay {
  import opened Options

  /** The tip's value where this run changed nothing, else this run's, absence included. */
  function Pick<V(==)>(base: Option<V>, ours: Option<V>, tip: Option<V>): Option<V> {
    if base == ours then tip else ours
  }

  /** This run changed the entry, and the tip holds neither the value it started from nor the one it left. */
  predicate Conflicting<V(==)>(base: Option<V>, ours: Option<V>, tip: Option<V>) {
    base != ours && tip != base && tip != ours
  }

  function Merge3<K, V(==)>(base: map<K, V>, ours: map<K, V>, tip: map<K, V>): map<K, V> {
    map k | k in base.Keys + ours.Keys + tip.Keys
            && Pick(Get(base, k), Get(ours, k), Get(tip, k)).Some?
      :: Pick(Get(base, k), Get(ours, k), Get(tip, k)).value
  }

  lemma MergeAt<K, V>(base: map<K, V>, ours: map<K, V>, tip: map<K, V>, k: K)
    ensures Get(Merge3(base, ours, tip), k) == Pick(Get(base, k), Get(ours, k), Get(tip, k))
  {
  }

  /** Replaying a commit onto its own parent gives the commit. */
  lemma MergeOntoParent<K(!new), V>(base: map<K, V>, ours: map<K, V>)
    ensures Merge3(base, ours, base) == ours
  {
    forall k ensures Get(Merge3(base, ours, base), k) == Get(ours, k) { MergeAt(base, ours, base, k); }
    SameLookups(Merge3(base, ours, base), ours);
  }

  /** Replaying twice changes nothing, and the second time finds no conflict at any key. */
  lemma MergeTwice<K(!new), V>(base: map<K, V>, ours: map<K, V>, tip: map<K, V>)
    ensures Merge3(base, ours, Merge3(base, ours, tip)) == Merge3(base, ours, tip)
    ensures forall k :: !Conflicting(Get(base, k), Get(ours, k), Get(Merge3(base, ours, tip), k))
  {
    var once := Merge3(base, ours, tip);
    forall k
      ensures Get(Merge3(base, ours, once), k) == Get(once, k)
      ensures !Conflicting(Get(base, k), Get(ours, k), Get(once, k))
    {
      MergeAt(base, ours, tip, k);
      MergeAt(base, ours, once, k);
    }
    SameLookups(Merge3(base, ours, once), once);
  }

  /** Replays whose deltas touch no common key commute. */
  lemma DisjointReplaysCommute<K(!new), V>(b1: map<K, V>, o1: map<K, V>, b2: map<K, V>, o2: map<K, V>, tip: map<K, V>)
    requires forall k :: Get(b1, k) == Get(o1, k) || Get(b2, k) == Get(o2, k)
    ensures Merge3(b1, o1, Merge3(b2, o2, tip)) == Merge3(b2, o2, Merge3(b1, o1, tip))
  {
    var l, r := Merge3(b1, o1, Merge3(b2, o2, tip)), Merge3(b2, o2, Merge3(b1, o1, tip));
    forall k ensures Get(l, k) == Get(r, k) {
      MergeAt(b2, o2, tip, k);
      MergeAt(b1, o1, tip, k);
      MergeAt(b1, o1, Merge3(b2, o2, tip), k);
      MergeAt(b2, o2, Merge3(b1, o1, tip), k);
    }
    SameLookups(l, r);
  }

  /** The write-back re-binds its state commit to the replayed one, so a later conflict replays
      the replay. At one key that equals replaying the original delta exactly when the key was
      not in the delta, or the first tip did not already hold this run's value, or the second
      tip does. */
  lemma ReplayOfAReplay<K, V>(base: map<K, V>, ours: map<K, V>, tip1: map<K, V>, tip2: map<K, V>, k: K)
    ensures var again := Merge3(tip1, Merge3(base, ours, tip1), tip2);
            Get(again, k) == Get(Merge3(base, ours, tip2), k)
            <==> || Get(base, k) == Get(ours, k)
                 || Get(tip1, k) != Get(ours, k)
                 || Get(tip2, k) == Get(ours, k)
  {
    MergeAt(base, ours, tip1, k);
    MergeAt(base, ours, tip2, k);
    MergeAt(tip1, Merge3(base, ours, tip1), tip2, k);
  }

  /** The tree left by replaying a commit onto each tip in turn, every replay's commit (whose
      parent is the tip it landed on) being the delta of the next. */
  function ReplayThrough<K, V(==)>(base: map<K, V>, ours: map<K, V>, tips: seq<map<K, V>>): map<K, V>
    decreases |tips|
  {
    if tips == [] then ours else ReplayThrough(tips[0], Merge3(base, ours, tips[0]), tips[1..])
  }

  /** Hence no number of repeated conflicts drops a binding this run set: a value no tip had
      before (a fresh id) is still there at the end. */
  lemma {:induction false} FreshValueSurvivesReplays<K, V>(base: map<K, V>, ours: map<K, V>, tips: seq<map<K, V>>, k: K)
    requires k in ours && Get(base, k) != Get(ours, k)
    requires forall i :: 0 <= i < |tips| ==> Get(tips[i], k) != Get(ours, k)
    ensures Get(ReplayThrough(base, ours, tips), k) == Get(ours, k)
    decreases |tips|
  {
    if tips != [] {
      MergeAt(base, ours, tips[0], k);
      var once := Merge3(base, ours, tips[0]);
      assert Get(once, k) == Get(ours, k) && k in once;
      FreshValueSurvivesReplays(tips[0], once, tips[1..], k);
    }
  }
}
