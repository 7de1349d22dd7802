/**
 * The drawing board of the whiteboard client (client/src/component/Board.tsx):
 * its undo/redo history, the canvas snapshots it broadcasts, the user count
 * it displays and the size it gives its canvas.
 *
 * A snapshot is the opaque data URL that `canvas.toDataURL()` returns; the
 * model never looks inside one, and takes each `toDataURL()` result as a
 * parameter. `history` holds the snapshots taken after each stroke, oldest
 * first, and `redoStack` the snapshots that undo has put aside, its top last.
 */
module Client {
  import opened Wrappers

  type Snapshot = string

  /** The two stacks of the board. */
  datatype Stacks = Stacks(history: seq<Snapshot>, redo: seq<Snapshot>)

  /** The stacks after an operation, and the snapshot it broadcasts, if any. */
  datatype Step = Step(stacks: Stacks, emitted: Option<Snapshot>)

  function Last(s: seq<Snapshot>): Snapshot
    requires s != []
  {
    s[|s| - 1]
  }

  function Pop(s: seq<Snapshot>): seq<Snapshot>
    requires s != []
  {
    s[..|s| - 1]
  }

  /**
   * `endDrawing`: the snapshot of the canvas is pushed onto the history, the
   * redo stack is emptied and the snapshot is broadcast.
   */
  function EndDrawingStep(st: Stacks, dataURL: Snapshot): (r: Step)
    ensures r.stacks.history != [] && Pop(r.stacks.history) == st.history
    ensures Last(r.stacks.history) == dataURL && r.stacks.redo == []
    ensures r.emitted == Some(dataURL)
  {
    Step(Stacks(st.history + [dataURL], []), Some(dataURL))
  }

  /**
   * `undo`: with an empty history nothing happens. Otherwise the last history
   * entry is dropped, the snapshot of what the canvas shows now (not the
   * dropped entry) is pushed onto the redo stack, and the new last entry is
   * broadcast, or the empty string when the history has become empty.
   */
  function UndoStep(st: Stacks, current: Snapshot): (r: Step)
    ensures st.history == [] ==> r == Step(st, None)
    ensures st.history != [] ==>
      && r.stacks.history + [Last(st.history)] == st.history
      && r.stacks.redo == st.redo + [current]
      && r.emitted == Some(if r.stacks.history == [] then "" else Last(r.stacks.history))
  {
    if st.history == [] then Step(st, None)
    else
      var h := Pop(st.history);
      assert h + [Last(st.history)] == st.history;
      Step(Stacks(h, st.redo + [current]), Some(if h == [] then "" else Last(h)))
  }

  /**
   * `redo`: with an empty redo stack nothing happens. Otherwise the top of the
   * redo stack moves onto the history and is broadcast.
   */
  function RedoStep(st: Stacks): (r: Step)
    ensures st.redo == [] ==> r == Step(st, None)
    ensures st.redo != [] ==>
      && r.stacks.redo + [Last(st.redo)] == st.redo
      && r.stacks.history == st.history + [Last(st.redo)]
      && r.emitted == Some(Last(st.redo))
  {
    if st.redo == [] then Step(st, None)
    else
      var top := Last(st.redo);
      assert Pop(st.redo) + [top] == st.redo;
      Step(Stacks(st.history + [top], Pop(st.redo)), Some(top))
  }

  /** `clearCanvas` on a mounted canvas: both stacks emptied, the blank canvas broadcast. */
  function ClearStep(blank: Snapshot): (r: Step)
    ensures r.stacks.history == [] && r.stacks.redo == []
    ensures r.emitted == Some(blank)
  {
    Step(Stacks([], []), Some(blank))
  }

  /**
   * Undo followed by redo restores both stacks when the canvas showed the last
   * history entry, and the restored snapshot is the one broadcast.
   */
  lemma UndoThenRedo(st: Stacks, current: Snapshot)
    requires st.history != [] && current == Last(st.history)
    ensures RedoStep(UndoStep(st, current).stacks).stacks == st
    ensures RedoStep(UndoStep(st, current).stacks).emitted == Some(current)
  {
    var u := UndoStep(st, current).stacks;
    assert RedoStep(u).stacks.history == st.history;
    assert RedoStep(u).stacks.redo == st.redo;
  }

  /** Redo followed by undo restores both stacks when the canvas shows the restored snapshot. */
  lemma RedoThenUndo(st: Stacks)
    requires st.redo != []
    ensures UndoStep(RedoStep(st).stacks, Last(st.redo)).stacks == st
  {
    var r := RedoStep(st).stacks;
    assert UndoStep(r, Last(st.redo)).stacks.history == st.history;
    assert UndoStep(r, Last(st.redo)).stacks.redo == st.redo;
  }

  /**
   * Undo right after a stroke takes the history back to what it was before the
   * stroke, keeps only what the canvas shows on the redo stack, and broadcasts
   * the snapshot from before the stroke.
   */
  lemma UndoAfterStroke(st: Stacks, dataURL: Snapshot, current: Snapshot)
    ensures UndoStep(EndDrawingStep(st, dataURL).stacks, current).stacks == Stacks(st.history, [current])
    ensures UndoStep(EndDrawingStep(st, dataURL).stacks, current).emitted
      == Some(if st.history == [] then "" else Last(st.history))
  {
  }

  /**
   * Leaving the canvas after a stroke fires `endDrawing` a second time, which
   * pushes the same snapshot again. The first undo then leaves the stroke in
   * the history and broadcasts the stroke itself, so nothing visibly changes.
   */
  lemma UndoAfterMouseOut(st: Stacks, dataURL: Snapshot)
    ensures var twice := EndDrawingStep(EndDrawingStep(st, dataURL).stacks, dataURL).stacks;
      && UndoStep(twice, dataURL).stacks == Stacks(st.history + [dataURL], [dataURL])
      && UndoStep(twice, dataURL).emitted == Some(dataURL)
  {
    var once := EndDrawingStep(st, dataURL).stacks;
    assert Pop(once.history + [dataURL]) == once.history;
  }

  /** A stroke discards everything that could have been redone. */
  lemma RedoAfterStroke(st: Stacks, dataURL: Snapshot)
    ensures RedoStep(EndDrawingStep(st, dataURL).stacks) == Step(EndDrawingStep(st, dataURL).stacks, None)
  {
  }

  /** After clearing, undo and redo do nothing and broadcast nothing. */
  lemma ClearedIsInert(blank: Snapshot, current: Snapshot)
    ensures UndoStep(ClearStep(blank).stacks, current) == Step(ClearStep(blank).stacks, None)
    ensures RedoStep(ClearStep(blank).stacks) == Step(ClearStep(blank).stacks, None)
  {
  }

  /** Undo and redo move one snapshot between the stacks: the total depth never changes. */
  lemma UndoRedoKeepDepth(st: Stacks, current: Snapshot)
    ensures |UndoStep(st, current).stacks.history| + |UndoStep(st, current).stacks.redo| == |st.history| + |st.redo|
    ensures |RedoStep(st).stacks.history| + |RedoStep(st).stacks.redo| == |st.history| + |st.redo|
  {
    if st.history != [] {
      assert |UndoStep(st, current).stacks.history| + 1 == |st.history|;
    }
    if st.redo != [] {
      assert |RedoStep(st).stacks.redo| + 1 == |st.redo|;
    }
  }

  /** The snapshots of a sequence, last first. */
  function Reverse(s: seq<Snapshot>): (r: seq<Snapshot>)
    ensures |r| == |s|
  {
    if s == [] then [] else [Last(s)] + Reverse(Pop(s))
  }

  lemma {:induction false} ReverseFront(s: seq<Snapshot>)
    requires s != []
    ensures Reverse(s) == Reverse(s[1..]) + [s[0]]
  {
    if |s| > 1 {
      ReverseFront(Pop(s));
      assert Pop(s)[1..] == Pop(s[1..]);
      assert Last(s[1..]) == Last(s);
    }
  }

  /**
   * `n` undos in a row, the canvas showing the last history entry each time
   * (as it does once the previous undo's image has been drawn).
   */
  function UndoTimes(st: Stacks, n: nat): Stacks
    requires n <= |st.history|
    decreases n
  {
    if n == 0 then st else UndoTimes(UndoStep(st, Last(st.history)).stacks, n - 1)
  }

  /** `n` redos in a row. */
  function RedoTimes(st: Stacks, n: nat): Stacks
    requires n <= |st.redo|
    decreases n
  {
    if n == 0 then st else RedoTimes(RedoStep(st).stacks, n - 1)
  }

  /** One undo, the canvas showing the last history entry `x`, moves `x` onto the redo stack. */
  lemma UndoOnce(h: seq<Snapshot>, r: seq<Snapshot>, x: Snapshot)
    ensures UndoStep(Stacks(h + [x], r), x).stacks == Stacks(h, r + [x])
  {
    assert Pop(h + [x]) == h;
  }

  /** One redo moves the top `x` of the redo stack onto the history. */
  lemma RedoOnce(h: seq<Snapshot>, r: seq<Snapshot>, x: Snapshot)
    ensures RedoStep(Stacks(h, r + [x])).stacks == Stacks(h + [x], r)
  {
    assert Pop(r + [x]) == r;
  }

  lemma UndoTimesUnfold(h: seq<Snapshot>, r: seq<Snapshot>, x: Snapshot, n: nat)
    requires n <= |h|
    ensures UndoTimes(Stacks(h + [x], r), n + 1) == UndoTimes(Stacks(h, r + [x]), n)
  {
    UndoOnce(h, r, x);
  }

  lemma RedoTimesUnfold(h: seq<Snapshot>, r: seq<Snapshot>, x: Snapshot, n: nat)
    requires n <= |r|
    ensures RedoTimes(Stacks(h, r + [x]), n + 1) == RedoTimes(Stacks(h + [x], r), n)
  {
    RedoOnce(h, r, x);
  }

  /** Splitting off the last entry of `t`, on the history side and on the redo side. */
  lemma SplitLast(h: seq<Snapshot>, r: seq<Snapshot>, t: seq<Snapshot>)
    requires t != []
    ensures h + t == (h + Pop(t)) + [Last(t)]
    ensures (r + [Last(t)]) + Reverse(Pop(t)) == r + Reverse(t)
  {
    assert t == Pop(t) + [Last(t)];
  }

  /** Splitting off the first entry of `t`, on the history side and on the redo side. */
  lemma SplitFirst(h: seq<Snapshot>, r: seq<Snapshot>, t: seq<Snapshot>)
    requires t != []
    ensures (h + [t[0]]) + t[1..] == h + t
    ensures r + Reverse(t) == (r + Reverse(t[1..])) + [t[0]]
  {
    ReverseFront(t);
    assert t == [t[0]] + t[1..];
  }

  /** Undoing as many times as `t` is long moves `t`, newest first, from the history onto the redo stack. */
  lemma {:induction false} UndoTimesShape(h: seq<Snapshot>, r: seq<Snapshot>, t: seq<Snapshot>)
    ensures UndoTimes(Stacks(h + t, r), |t|) == Stacks(h, r + Reverse(t))
    decreases |t|
  {
    if t != [] {
      SplitLast(h, r, t);
      UndoTimesUnfold(h + Pop(t), r, Last(t), |Pop(t)|);
      UndoTimesShape(h, r + [Last(t)], Pop(t));
    }
  }

  /** Redoing as many times as `t` is long moves `t` back from the redo stack onto the history. */
  lemma {:induction false} RedoTimesShape(h: seq<Snapshot>, r: seq<Snapshot>, t: seq<Snapshot>)
    ensures RedoTimes(Stacks(h, r + Reverse(t)), |t|) == Stacks(h + t, r)
    decreases |t|
  {
    if t != [] {
      SplitFirst(h, r, t);
      RedoTimesUnfold(h, r + Reverse(t[1..]), t[0], |t[1..]|);
      RedoTimesShape(h + [t[0]], r, t[1..]);
    }
  }

  /**
   * Undoing n strokes and then redoing n times brings both stacks back to
   * where they were.
   */
  lemma UndoAllThenRedoAll(st: Stacks, n: nat)
    requires n <= |st.history|
    ensures |UndoTimes(st, n).redo| >= n
    ensures RedoTimes(UndoTimes(st, n), n) == st
  {
    var k := |st.history| - n;
    var h, t := st.history[..k], st.history[k..];
    assert h + t == st.history;
    UndoTimesShape(h, st.redo, t);
    RedoTimesShape(h, st.redo, t);
  }

  /** `width={windowSize[0] > 600 ? 600 : 300}`. */
  function CanvasWidth(windowWidth: int): (w: nat)
    ensures w == 600 || w == 300
    ensures w == 600 <==> windowWidth > 600
  {
    if windowWidth > 600 then 600 else 300
  }

  /** `height={windowSize[1] > 400 ? 400 : 200}`. */
  function CanvasHeight(windowHeight: int): (h: nat)
    ensures h == 400 || h == 200
    ensures h == 400 <==> windowHeight > 400
  {
    if windowHeight > 400 then 400 else 200
  }

  /** A larger window never gets a smaller canvas, and a window at least 300 by 200 holds the canvas. */
  lemma CanvasSizeMonotone(w1: int, h1: int, w2: int, h2: int)
    requires w1 <= w2 && h1 <= h2
    ensures CanvasWidth(w1) <= CanvasWidth(w2) && CanvasHeight(h1) <= CanvasHeight(h2)
    ensures w1 >= 300 ==> CanvasWidth(w1) <= w1
    ensures h1 >= 200 ==> CanvasHeight(h1) <= h1
  {
  }

  /** What the board sends: `socket.emit('canvasImage', { roomId, data })`. */
  datatype Outgoing = CanvasImage(roomId: string, data: Snapshot)

  /** The board component: its state hooks, whether its canvas and socket exist, and what it has sent. */
  class Board {
    const roomId: string
    /** `canvasRef.current` is set and yields a 2D context. */
    const mounted: bool
    /** The `socket` state is non-null. */
    const online: bool
    var history: seq<Snapshot>
    var redoStack: seq<Snapshot>
    var userCount: int
    var sent: seq<Outgoing>

    function State(): Stacks
      reads this
    {
      Stacks(history, redoStack)
    }

    /** What a step sends: its snapshot, if it has one and the socket exists. */
    function Emitted(step: Step): seq<Outgoing>
    {
      if online && step.emitted.Some? then [CanvasImage(roomId, step.emitted.value)] else []
    }

    /** First render: both stacks empty, the count shown as 1, nothing sent. */
    constructor (roomId: string, mounted: bool, online: bool)
      ensures this.roomId == roomId && this.mounted == mounted && this.online == online
      ensures history == [] && redoStack == [] && userCount == 1 && sent == []
    {
      this.roomId, this.mounted, this.online := roomId, mounted, online;
      history, redoStack, userCount, sent := [], [], 1, [];
    }

    /** `endDrawing`, on mouse-up or mouse-out alike; it does nothing without a canvas. */
    method EndDrawing(dataURL: Snapshot)
      modifies this`history, this`redoStack, this`sent
      ensures !mounted ==> State() == old(State()) && sent == old(sent)
      ensures mounted ==>
        && State() == EndDrawingStep(old(State()), dataURL).stacks
        && sent == old(sent) + Emitted(EndDrawingStep(old(State()), dataURL))
    {
      if !mounted {
        return;
      }
      history := history + [dataURL];
      redoStack := [];
      if online {
        sent := sent + [CanvasImage(roomId, dataURL)];
      }
    }

    /**
     * `undo`, where `current` is what `canvasRef.current!.toDataURL()` returns;
     * the canvas must exist once there is something to undo.
     */
    method Undo(current: Snapshot)
      requires history != [] ==> mounted
      modifies this`history, this`redoStack, this`sent
      ensures State() == UndoStep(old(State()), current).stacks
      ensures sent == old(sent) + Emitted(UndoStep(old(State()), current))
    {
      if |history| == 0 {
        return;
      }
      var newHistory := history[..|history| - 1];
      var last := if |newHistory| > 0 then newHistory[|newHistory| - 1] else "";
      history := newHistory;
      redoStack := redoStack + [current];
      if online {
        sent := sent + [CanvasImage(roomId, last)];
      }
    }

    /** `redo`. */
    method Redo()
      modifies this`history, this`redoStack, this`sent
      ensures State() == RedoStep(old(State())).stacks
      ensures sent == old(sent) + Emitted(RedoStep(old(State())))
    {
      if |redoStack| == 0 {
        return;
      }
      var restored := redoStack[|redoStack| - 1];
      redoStack := redoStack[..|redoStack| - 1];
      history := history + [restored];
      if online {
        sent := sent + [CanvasImage(roomId, restored)];
      }
    }

    /** `clearCanvas`, where `blank` is the snapshot of the cleared canvas; it does nothing without a canvas. */
    method ClearCanvas(blank: Snapshot)
      modifies this`history, this`redoStack, this`sent
      ensures !mounted ==> State() == old(State()) && sent == old(sent)
      ensures mounted ==>
        && State() == ClearStep(blank).stacks
        && sent == old(sent) + Emitted(ClearStep(blank))
    {
      if mounted {
        history := [];
        redoStack := [];
        if online {
          sent := sent + [CanvasImage(roomId, blank)];
        }
      }
    }

    /** The `user-count` listener: the count shown becomes the one received. */
    method OnUserCount(count: int)
      modifies this`userCount
      ensures userCount == count
    {
      userCount := count;
    }
  }
}
