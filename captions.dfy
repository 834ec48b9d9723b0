/** The caption registry: child widgets declared to behave as a draggable
    title bar. The window keeps only references to them, in declaration
    order; a widget's box is read from the widget each time it is needed. */
module Captions {

  /** The identity of a registered widget (the pointer the window keeps). */
  type WidgetId = nat

  /** A widget's window-relative origin and its size, as read at call time. */
  datatype Box = Box(x: int, y: int, width: int, height: int)

  /** The box contains the point with its far edges included on all four sides. */
  predicate BoxContains(b: Box, cx: int, cy: int) {
    b.x <= cx <= b.x + b.width && b.y <= cy <= b.y + b.height
  }

  /** isCaption(cx, cy): some registered widget's box contains the point. */
  function IsCaption(captions: seq<WidgetId>, boxOf: WidgetId -> Box, cx: int, cy: int): (r: bool)
    ensures r <==> exists i :: 0 <= i < |captions| && BoxContains(boxOf(captions[i]), cx, cy)
    decreases |captions|
  {
    if captions == [] then false
    else if BoxContains(boxOf(captions[0]), cx, cy) then true
    else
      var rest := IsCaption(captions[1..], boxOf, cx, cy);
      assert forall i :: 1 <= i < |captions| ==> captions[i] == captions[1..][i - 1];
      rest
  }

  /** The registry after removeCaption(w), as the erasing index loop leaves it:
      the index moves on after an erase, so the entry that slid into the erased
      slot is kept without being compared. */
  function RemovedAsWritten(s: seq<WidgetId>, w: WidgetId): (r: seq<WidgetId>)
    ensures |r| <= |s|
    decreases |s|
  {
    if s == [] then []
    else if s[0] == w then (if |s| == 1 then [] else [s[1]] + RemovedAsWritten(s[2..], w))
    else [s[0]] + RemovedAsWritten(s[1..], w)
  }

  /** What removeCaption's loop leaves when it resumes at index `i` of the
      registry `s`: the part before `i` is final, the rest is still to be
      walked. An index past the end (after an erase at the last slot) leaves
      the registry as it is. */
  function RemovalFrom(s: seq<WidgetId>, i: nat, w: WidgetId): seq<WidgetId> {
    if i <= |s| then s[..i] + RemovedAsWritten(s[i..], w) else s
  }

  /** Erasing a match at `i` and moving on to `i + 1` does not change what the
      loop leaves. */
  lemma EraseStep(s: seq<WidgetId>, i: nat, w: WidgetId)
    requires i < |s| && s[i] == w
    ensures RemovalFrom(s[..i] + s[i + 1..], i + 1, w) == RemovalFrom(s, i, w)
  {
    var t := s[..i] + s[i + 1..];
    if i + 1 < |s| {
      assert t[..i + 1] == s[..i] + [s[i + 1]];
      assert t[i + 1..] == s[i + 2..];
      assert s[i..][1..][1..] == s[i + 2..];
    } else {
      assert t == s[..i];
    }
  }

  /** Stepping over a non-matching entry does not change what the loop leaves. */
  lemma SkipStep(s: seq<WidgetId>, i: nat, w: WidgetId)
    requires i < |s| && s[i] != w
    ensures RemovalFrom(s, i + 1, w) == RemovalFrom(s, i, w)
  {
    assert s[..i + 1] == s[..i] + [s[i]];
    assert s[i..][1..] == s[i + 1..];
  }

  /** Every entry of `s` but those equal to `w`, in order. */
  function Without(s: seq<WidgetId>, w: WidgetId): (r: seq<WidgetId>)
    ensures w !in r
    ensures |r| <= |s|
  {
    if s == [] then []
    else if s[0] == w then Without(s[1..], w)
    else [s[0]] + Without(s[1..], w)
  }

  lemma {:induction false} WithoutAppend(a: seq<WidgetId>, b: seq<WidgetId>, w: WidgetId)
    ensures Without(a + b, w) == Without(a, w) + Without(b, w)
    decreases |a|
  {
    if a == [] {
      assert a + b == b;
    } else {
      assert (a + b)[1..] == a[1..] + b;
      WithoutAppend(a[1..], b, w);
    }
  }

  /** removeCaption deletes nothing but entries equal to the widget, and every
      other entry keeps its place relative to the others. */
  lemma {:induction false} RemovedAsWrittenKeepsOthers(s: seq<WidgetId>, w: WidgetId)
    ensures Without(RemovedAsWritten(s, w), w) == Without(s, w)
    ensures |RemovedAsWritten(s, w)| <= |s|
    decreases |s|
  {
    if s == [] {
    } else if s[0] == w {
      if |s| > 1 {
        RemovedAsWrittenKeepsOthers(s[2..], w);
        WithoutAppend([s[1]], RemovedAsWritten(s[2..], w), w);
        assert s[1..] == [s[1]] + s[2..];
        WithoutAppend([s[1]], s[2..], w);
      }
    } else {
      RemovedAsWrittenKeepsOthers(s[1..], w);
      WithoutAppend([s[0]], RemovedAsWritten(s[1..], w), w);
    }
  }

  /** removeCaption of a widget that is not registered leaves the registry as
      it is; of one that is, it removes at least one reference. */
  lemma {:induction false} RemovedAsWrittenChangesOnlyMatches(s: seq<WidgetId>, w: WidgetId)
    ensures w !in s ==> RemovedAsWritten(s, w) == s
    ensures w in s ==> |RemovedAsWritten(s, w)| < |s|
    decreases |s|
  {
    if s == [] {
    } else if s[0] == w {
    } else {
      assert w in s[1..] <==> w in s;
      RemovedAsWrittenChangesOnlyMatches(s[1..], w);
    }
  }

  /** No two equal-to-`w` entries sit side by side. */
  predicate NoAdjacentCopies(s: seq<WidgetId>, w: WidgetId) {
    forall i :: 0 <= i < |s| - 1 && s[i] == w ==> s[i + 1] != w
  }

  /** When the widget was never declared twice in a row, removeCaption removes
      every reference to it. */
  lemma {:induction false} RemovedAsWrittenComplete(s: seq<WidgetId>, w: WidgetId)
    requires NoAdjacentCopies(s, w)
    ensures RemovedAsWritten(s, w) == Without(s, w)
    decreases |s|
  {
    if s == [] {
    } else if s[0] == w {
      if |s| > 1 {
        assert s[1] != w;
        assert NoAdjacentCopies(s[2..], w) by {
          forall i | 0 <= i < |s[2..]| - 1 && s[2..][i] == w ensures s[2..][i + 1] != w {
            assert s[i + 2] == w;
          }
        }
        RemovedAsWrittenComplete(s[2..], w);
        assert s[1..][1..] == s[2..];
      }
    } else {
      assert NoAdjacentCopies(s[1..], w) by {
        forall i | 0 <= i < |s[1..]| - 1 && s[1..][i] == w ensures s[1..][i + 1] != w {
          assert s[i + 1] == w;
        }
      }
      RemovedAsWrittenComplete(s[1..], w);
    }
  }

  /** A widget declared twice in a row survives one removeCaption: the second
      reference slides into the erased slot and is stepped over. */
  lemma {:induction false} RemovedAsWrittenSkipsSecondCopy(p: seq<WidgetId>, q: seq<WidgetId>, w: WidgetId)
    requires w !in p
    ensures RemovedAsWritten(p + [w, w] + q, w) == p + [w] + RemovedAsWritten(q, w)
    ensures w in RemovedAsWritten(p + [w, w] + q, w)
    decreases |p|
  {
    var s := p + [w, w] + q;
    if p == [] {
      assert s[0] == w && s[1] == w && s[2..] == q;
    } else {
      assert s[0] == p[0] && s[1..] == p[1..] + [w, w] + q;
      RemovedAsWrittenSkipsSecondCopy(p[1..], q, w);
    }
  }

  /** declareCaption appends; removeCaption of a widget that was not yet
      registered then gives back the registry as it was. */
  lemma {:induction false} RemoveUndoesDeclare(s: seq<WidgetId>, w: WidgetId)
    requires w !in s
    ensures RemovedAsWritten(s + [w], w) == s
    decreases |s|
  {
    if s == [] {
      assert s + [w] == [w];
    } else {
      assert (s + [w])[0] == s[0] && (s + [w])[1..] == s[1..] + [w];
      RemoveUndoesDeclare(s[1..], w);
    }
  }
}
