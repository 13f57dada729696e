/**
 * The record of what went wrong while tracks were downloaded and read: a
 * list of entries, each with a severity, a message and the kind of track it
 * concerns, and a change notification raised after every update.
 *
 * The kinds of track are the type parameter `T`; the notification is a
 * counter of how many times it was raised.
 */
module TrackStatus {

  /** How serious a recorded problem is, from a minor one to the loss of a whole track system. */
  datatype Severity = Advisory | Caution | Critical

  /** One recorded problem. */
  datatype Entry<T> = Entry(severity: Severity, message: string, trackType: T)

  /** The entries of `s` that do not concern track type `t`, in their original order. */
  function WithoutType<T(==)>(s: seq<Entry<T>>, t: T): (r: seq<Entry<T>>)
    ensures |r| <= |s|
  {
    if s == [] then []
    else (if s[0].trackType == t then [] else [s[0]]) + WithoutType(s[1..], t)
  }

  /** The entries of `s` that concern track type `u`, in their original order. */
  function OfType<T(==)>(s: seq<Entry<T>>, u: T): (r: seq<Entry<T>>)
    ensures forall k :: 0 <= k < |r| ==> r[k].trackType == u
  {
    if s == [] then []
    else (if s[0].trackType == u then [s[0]] else []) + OfType(s[1..], u)
  }

  /** Removing a type commutes with concatenation. */
  lemma {:induction false} WithoutTypeAppend<T>(a: seq<Entry<T>>, b: seq<Entry<T>>, t: T)
    ensures WithoutType(a + b, t) == WithoutType(a, t) + WithoutType(b, t)
  {
    if a != [] {
      var head := if a[0].trackType == t then [] else [a[0]];
      assert (a + b)[0] == a[0] && (a + b)[1..] == a[1..] + b;
      WithoutTypeAppend(a[1..], b, t);
      calc {
        WithoutType(a + b, t);
        head + WithoutType(a[1..] + b, t);
        head + (WithoutType(a[1..], t) + WithoutType(b, t));
        (head + WithoutType(a[1..], t)) + WithoutType(b, t);
      }
    } else {
      assert a + b == b;
    }
  }

  /** Selecting a type commutes with concatenation. */
  lemma {:induction false} OfTypeAppend<T>(a: seq<Entry<T>>, b: seq<Entry<T>>, u: T)
    ensures OfType(a + b, u) == OfType(a, u) + OfType(b, u)
  {
    if a != [] {
      assert (a + b)[1..] == a[1..] + b;
      OfTypeAppend(a[1..], b, u);
    } else {
      assert a + b == b;
    }
  }

  /** An entry survives exactly when it was there and concerns another type. */
  lemma {:induction false} WithoutTypeMembers<T>(s: seq<Entry<T>>, t: T, e: Entry<T>)
    ensures e in WithoutType(s, t) <==> e in s && e.trackType != t
  {
    if s != [] {
      WithoutTypeMembers(s[1..], t, e);
      assert s == [s[0]] + s[1..];
    }
  }

  /**
   * The entries of every other type are all kept, in the same order; none of
   * the removed type is left.
   */
  lemma {:induction false} WithoutTypeKeepsOtherTypes<T>(s: seq<Entry<T>>, t: T, u: T)
    ensures OfType(WithoutType(s, t), u) == if u == t then [] else OfType(s, u)
  {
    if s != [] {
      WithoutTypeKeepsOtherTypes(s[1..], t, u);
      var head := if s[0].trackType == t then [] else [s[0]];
      OfTypeAppend(head, WithoutType(s[1..], t), u);
      if s[0].trackType != t {
        assert head[1..] == [];
      }
    }
  }

  /** Entries of the removed type are the only ones that go. */
  lemma {:induction false} WithoutTypeCount<T>(s: seq<Entry<T>>, t: T)
    ensures |WithoutType(s, t)| + |OfType(s, t)| == |s|
  {
    if s != [] {
      WithoutTypeCount(s[1..], t);
    }
  }

  /** Without any entry of the type, nothing is removed. */
  lemma {:induction false} WithoutAbsentType<T>(s: seq<Entry<T>>, t: T)
    requires forall k :: 0 <= k < |s| ==> s[k].trackType != t
    ensures WithoutType(s, t) == s
  {
    if s != [] {
      WithoutAbsentType(s[1..], t);
    }
  }

  /** Clearing a type twice is clearing it once. */
  lemma WithoutTypeIdempotent<T>(s: seq<Entry<T>>, t: T)
    ensures WithoutType(WithoutType(s, t), t) == WithoutType(s, t)
  {
    var r := WithoutType(s, t);
    forall k | 0 <= k < |r|
      ensures r[k].trackType != t
    {
      WithoutTypeMembers(s, t, r[k]);
    }
    WithoutAbsentType(WithoutType(s, t), t);
  }

  /**
   * One step of the backward removal: with the entries after i already
   * filtered, dropping entry i when it has the type (keeping it otherwise)
   * leaves the entries from i on filtered.
   */
  lemma ClearTypeStep<T>(before: seq<Entry<T>>, i: nat, t: T, records: seq<Entry<T>>)
    requires i < |before|
    requires records == before[..i + 1] + WithoutType(before[i + 1..], t)
    ensures i < |records| && records[i] == before[i]
    ensures records[i].trackType == t ==> records[..i] + records[i + 1..] == before[..i] + WithoutType(before[i..], t)
    ensures records[i].trackType != t ==> records == before[..i] + WithoutType(before[i..], t)
  {
    var tail := WithoutType(before[i + 1..], t);
    assert before[..i + 1] == before[..i] + [before[i]];
    assert records == before[..i] + [before[i]] + tail;
    assert before[i..][1..] == before[i + 1..];
    assert records[..i] == before[..i] && records[i + 1..] == tail;
  }

  /** A status log and its change notification. */
  class StatusRecorder<T(==)> {
    /** The recorded entries, oldest first. */
    var records: seq<Entry<T>>
    /** How many times the change notification has been raised. */
    var changeEvents: nat

    constructor()
      ensures records == [] && changeEvents == 0
    {
      records := [];
      changeEvents := 0;
    }

    /** Records one entry at the end and raises the notification. */
    method AddEntry(severity: Severity, message: string, trackType: T)
      modifies this
      ensures records == old(records) + [Entry(severity, message, trackType)]
      ensures changeEvents == old(changeEvents) + 1
    {
      records := records + [Entry(severity, message, trackType)];
      changeEvents := changeEvents + 1;
    }

    /** Records several entries at the end, in their order, and raises the notification. */
    method AddEntries(entries: seq<Entry<T>>)
      modifies this
      ensures records == old(records) + entries
      ensures changeEvents == old(changeEvents) + 1
    {
      records := records + entries;
      changeEvents := changeEvents + 1;
    }

    /** Forgets every entry and raises the notification. */
    method Clear()
      modifies this
      ensures records == []
      ensures changeEvents == old(changeEvents) + 1
    {
      records := [];
      changeEvents := changeEvents + 1;
    }

    /**
     * Forgets the entries of one track type, walking the list from its end
     * and removing in place, and raises the notification even when nothing
     * was removed.
     */
    method ClearType(trackType: T)
      modifies this
      ensures records == WithoutType(old(records), trackType)
      ensures changeEvents == old(changeEvents) + 1
    {
      ghost var before := records;
      var i := |records| - 1;
      while i >= 0
        invariant -1 <= i < |before|
        invariant records == before[..i + 1] + WithoutType(before[i + 1..], trackType)
        invariant changeEvents == old(changeEvents)
        decreases i
      {
        ClearTypeStep(before, i, trackType, records);
        if records[i].trackType == trackType {
          records := records[..i] + records[i + 1..];
        }
        i := i - 1;
      }
      assert before[..0] == [] && before[0..] == before;
      assert records == WithoutType(before, trackType);
      changeEvents := changeEvents + 1;
    }
  }

  /** An entry recorded and then cleared by its type leaves no trace. */
  lemma AddThenClearType<T>(s: seq<Entry<T>>, severity: Severity, message: string, t: T)
    ensures WithoutType(s + [Entry(severity, message, t)], t) == WithoutType(s, t)
  {
    WithoutTypeAppend(s, [Entry(severity, message, t)], t);
  }
}
