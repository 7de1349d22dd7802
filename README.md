# Whiteboard room relay and board history, in Dafny

This project models the two stateful parts of a real-time collaborative whiteboard.

**The relay server** (`backend/index.js`) keeps two pieces of state:

- `roomCreators`, which maps each room to the socket that joined it first;
- socket.io's room membership.

It has three jobs:

- Tell a room's creator how many others are in the room.
- Ask the creator to send its canvas to every new joiner.
- Pass canvas snapshots either to one addressee or to everyone else in the room.

**The drawing board** (`client/src/component/Board.tsx`) keeps two stacks of canvas snapshots (data URLs):

- the `history` of strokes;
- the `redoStack` of snapshots that undo has put aside.

When a socket exists, it broadcasts a snapshot after every stroke and clear, and after every undo or redo that has a snapshot to move.

The project has four modules:

- `Wrappers` gives `Option`, which stands for JavaScript's `undefined`.
- `Backend` holds the pure helpers of the relay:
  - `Occupancy` is the count sent to a creator;
  - `FanOut` is the room broadcast;
  - `ScheduleRecounts` is the loop of the `disconnecting` handler.

  It also holds the class `Relay`, whose fields are:
  - `creators`, the `roomCreators` map;
  - `members`, the adapter's rooms;
  - `connected`, the live sockets;
  - `timers`, the recount timers still due, first due first;
  - `outbox`, every emission so far, as (addressee, event) pairs.

  Each socket.io handler is a method of `Relay`, and `Valid()` is the invariant the handlers keep.
- `BackendRuns` drives a freshly started `Relay` through whole runs and proves exactly what is emitted:
  - `JoinOneByOne`: N sockets join a room one after another.
  - `OrphanedRoom`: the creator leaves, and the room is left without one.
- `Client` holds the pure transition functions on the two stacks (`EndDrawingStep`, `UndoStep`, `RedoStep`, `ClearStep`) and the lemmas relating them. Its class `Board` holds the component's state hooks, and each stack-changing `Board` method, once the canvas is mounted, is proved to move its state exactly as the matching transition function does.

Modelling choices:

- socket.io's personal rooms are modelled. Every connected socket is a member of the room named after its own id. Room names and socket ids share one name space. That is why the `disconnecting` loop's `roomId !== socket.id` test has an effect.
- `io.to(x).emit(...)` is one message addressed to the name `x`. `socket.to(room).emit(...)` is one message per member of the room who is not in the sender's personal room. socket.io excepts the whole room named after the sender's id, and that room always holds the sender.
- The truthiness test `!roomCreators[roomId]` becomes "no entry, or the empty string".
- When someone joins a room whose creator has disconnected, the code still emits `user-count` and `send-current-canvas` to the departed socket id. socket.io delivers them to nobody, because that socket's personal room is gone. `BackendRuns.OrphanedRoom` proves what is emitted.

## Model

| member | source | states |
|---|---|---|
| Backend.Occupancy | backend/index.js:32-34 | the count told to a creator is the number of room members other than the creator, so it is never negative and never more than the room's size |
| Backend.OccupancyOfJoiners | backend/index.js:31-38 | once N distinct sockets have joined a room next to its creator, the creator is told exactly N |
| Backend.OccupancyAfterLeave | backend/index.js:60-65 | after a non-creator member leaves, the count drops by exactly one; when the creator itself leaves, the count is unchanged |
| Backend.OccupancyRejoin | backend/index.js:17-34 | a member joining a room again does not change the count |
| Backend.DeliversCount | backend/index.js:52 | any broadcast that reaches each recipient exactly once and nobody else sends exactly as many messages as there are recipients |
| Backend.DeliversToOne | backend/index.js:52 | a broadcast whose only recipient is one socket is exactly one message to that socket |
| Backend.DeliversToNobody | backend/index.js:52 | a broadcast with no recipients sends nothing |
| Backend.FanOut | backend/index.js:52 | the broadcast reaches every recipient exactly once with the data, reaches nobody else, and sends one message per recipient |
| Backend.ScheduleRecounts | backend/index.js:57-59 | every room the socket is in, other than its personal room, is scheduled exactly once, and nothing else is scheduled |
| Backend.Relay.Members | backend/index.js:20 | a room that does not exist has no members, and while the invariant holds every member of a room is a live socket |
| Backend.Relay.constructor | backend/index.js:10 | the server starts with no creators, no rooms, no live sockets, no timers and nothing sent |
| Backend.Relay.Connect | backend/index.js:12 | a new socket becomes live, and its only room is its personal room; nothing else changes and the invariant holds |
| Backend.Relay.Join | backend/index.js:17 | `socket.join` adds the socket to the room, creating the room if need be, and changes no other room; the socket's rooms gain exactly that room |
| Backend.Relay.JoinRoom | backend/index.js:16-43 | a first joiner becomes the creator and is told 0. A later joiner leaves the creator map unchanged, and the recorded creator is told the occupancy and asked to send its canvas to the joiner, in that order |
| Backend.Relay.CanvasImage | backend/index.js:46-54 | with a truthy `to`, exactly one message goes to that addressee. Otherwise every member of the room outside the sender's personal room receives the data exactly once, and nobody else does. The outbox grows by exactly what was sent |
| Backend.Relay.Disconnecting | backend/index.js:56-75 | a recount is queued, once each, for exactly the rooms the socket is in other than its personal room. Nothing is sent yet |
| Backend.Relay.Disconnect | backend/index.js:77-79 | after teardown the socket is no longer live, is in no room, every room has lost it, and the creator map is untouched |
| Backend.Relay.Recount | backend/index.js:60-71 | the creator is told the occupancy if it is recorded, non-empty and still connected. Otherwise nothing is sent |
| Backend.Relay.RunTimer | backend/index.js:59-72 | the earliest due timer is removed from the queue, and its recount runs as in `Recount` |
| BackendRuns.TranscriptSnoc | backend/index.js:31-42 | each further joiner adds exactly its count and its canvas request to what the creator has been sent |
| BackendRuns.TranscriptShape | backend/index.js:23-42 | the creator and N later joiners produce 1 + 2N messages, every one of them addressed to the creator |
| BackendRuns.JoinRound | backend/index.js:16-43 | a new socket joining a room whose members are all the live sockets makes the creator be told the room's earlier size |
| BackendRuns.FoundRoom | backend/index.js:23-27 | on a fresh server, the first socket to join a room becomes its creator and alone is told 0 |
| BackendRuns.JoinOneByOne | backend/index.js:16-43 | after the creator and N distinct joiners join one by one, everything emitted is the transcript: the creator is told 0, 1, …, N, each count followed by a canvas request for that joiner |
| BackendRuns.Founded | backend/index.js:23-27 | the first stage of the orphaned-room run: one socket creates the room |
| BackendRuns.SecondJoins | backend/index.js:31-42 | a second socket joins the room and the creator is told 1 and asked for its canvas |
| BackendRuns.TwoInRoom | backend/index.js:46-54 | a stroke broadcast by the joiner reaches the creator only |
| BackendRuns.OnlyRoomOf | backend/index.js:57-58 | a socket that joined one room besides its personal room schedules exactly one recount, for that room |
| BackendRuns.CreatorLeaves | backend/index.js:56-72 | when the creator leaves, its recount fires and sends nothing, because the creator is no longer connected |
| BackendRuns.ThirdJoins | backend/index.js:31-42 | a join after the creator left still addresses the departed creator, with the full room size |
| BackendRuns.OrphanedRoom | backend/index.js:16-75 | the whole run emits exactly six messages, all addressed to the departed creator, and the second stroke reaches nobody |
| Client.EndDrawingStep | client/src/component/Board.tsx:80-93 | a stroke pushes its snapshot onto the history, empties the redo stack and broadcasts the snapshot |
| Client.UndoStep | client/src/component/Board.tsx:113-130 | undo on an empty history does nothing. Otherwise it drops exactly the last history entry, pushes the current canvas onto the redo stack, and broadcasts the new last entry, or "" once the history is empty |
| Client.RedoStep | client/src/component/Board.tsx:132-148 | redo on an empty redo stack does nothing. Otherwise it moves the top of the redo stack onto the history and broadcasts it |
| Client.ClearStep | client/src/component/Board.tsx:150-159 | clearing empties both stacks and broadcasts the blank canvas |
| Client.UndoThenRedo | client/src/component/Board.tsx:113-148 | when the canvas shows the last history entry, undo then redo restores both stacks and broadcasts that entry again |
| Client.RedoThenUndo | client/src/component/Board.tsx:113-148 | redo then undo restores both stacks, provided the canvas shows the restored snapshot when undo runs. If a peer's image has been drawn in between, undo pushes that image instead |
| Client.UndoAfterStroke | client/src/component/Board.tsx:80-130 | undo right after a stroke restores the history from before the stroke, keeps only the current canvas on the redo stack, and broadcasts the earlier snapshot |
| Client.UndoAfterMouseOut | client/src/component/Board.tsx:80-130 | a stroke followed by the pointer leaving the canvas pushes the same snapshot twice, so the first undo keeps the stroke and broadcasts the stroke itself |
| Client.RedoAfterStroke | client/src/component/Board.tsx:80-148 | after a stroke there is nothing to redo |
| Client.ClearedIsInert | client/src/component/Board.tsx:113-159 | after clearing, undo and redo do nothing and broadcast nothing |
| Client.UndoRedoKeepDepth | client/src/component/Board.tsx:113-148 | undo and redo never change the total number of snapshots kept on the two stacks |
| Client.UndoTimesShape | client/src/component/Board.tsx:113-130 | n undos in a row move the last n history entries, newest first, onto the redo stack, provided that at each undo the canvas shows the last history entry. If a peer's image has been drawn in between, undo pushes that image instead |
| Client.RedoTimesShape | client/src/component/Board.tsx:132-148 | redoing as many times as there are entries pushed by such undos puts those entries back on the history in their original order |
| Client.UndoAllThenRedoAll | client/src/component/Board.tsx:113-148 | undoing n strokes and then redoing n times brings both stacks back to where they were, provided that at each undo the canvas shows the last history entry |
| Client.CanvasWidth | client/src/component/Board.tsx:188 | the canvas is 600 wide exactly when the window is wider than 600, and 300 wide otherwise |
| Client.CanvasHeight | client/src/component/Board.tsx:189 | the canvas is 400 high exactly when the window is higher than 400, and 200 high otherwise |
| Client.CanvasSizeMonotone | client/src/component/Board.tsx:188-189 | a larger window never gets a smaller canvas, and a window of at least 300 by 200 is never smaller than its canvas |
| Client.Board.constructor | client/src/component/Board.tsx:15-18 | the board starts with empty stacks, a count of 1 and nothing sent |
| Client.Board.EndDrawing | client/src/component/Board.tsx:80-93 | without a canvas nothing changes. Otherwise the stacks move as in `EndDrawingStep`, and the snapshot is sent with the room id only when a socket exists |
| Client.Board.Undo | client/src/component/Board.tsx:113-130 | the stacks move as in `UndoStep`, and its snapshot is sent only when a socket exists |
| Client.Board.Redo | client/src/component/Board.tsx:132-148 | the stacks move as in `RedoStep`, and its snapshot is sent only when a socket exists |
| Client.Board.ClearCanvas | client/src/component/Board.tsx:150-159 | without a canvas nothing changes. Otherwise both stacks are emptied and the blank snapshot is sent when a socket exists |
| Client.Board.OnUserCount | client/src/component/Board.tsx:47-49 | the displayed count becomes the count received |

## Left out

- Server setup is not modelled: the `Server` construction with its CORS options, `io.listen`, and all console logging. They do not affect the relay's state or what it sends.
- The relay's socket ids are abstract non-empty strings. Accepting a transport connection is the `Connect` step.
- JavaScript object keys inherited from `Object.prototype` are not modelled. For example, a room named `constructor` would look as if it already had a creator. `creators` is a plain map.
- The 100 ms delay of the recount timers is not modelled. A timer is an entry in a FIFO queue, and the caller chooses when `RunTimer` fires it relative to other events.
- The order in which socket.io delivers one broadcast to the members of a room is not modelled. `FanOut` fixes one order, and its contract does not depend on which.
- Backend.Relay.Disconnect: the `disconnect` handler itself only logs. The method models socket.io's teardown, in which the socket leaves every room.
- Backend.Relay.Disconnecting: the order of the queued recounts is not modelled. `socket.rooms` is iterated in join order, and equal-delay timers fire in the order they were set, so the `user-count` messages follow that order. `ScheduleRecounts` queues each room once, in an unspecified order.
- The client's socket creation and its `join-room` emit on connect are not modelled.
- The client's incoming `canvasImage` handler is not modelled: it rasterises an image onto the canvas.
- `startDrawing` and `draw` are not modelled. They change only pixels and local pointer state.
- The wiring of the mouse listeners and the window-resize effect are not modelled.
- Rendering is not modelled, including showing the count only to the creator.
- Every `canvas.toDataURL()` result is a parameter (`dataURL`, `current`, `blank`), because the rasteriser is foreign code.
- Client.Board.Undo: drawing the restored image when `img.onload` fires is not modelled, and neither is the redraw in `Board.Redo`. The model broadcasts the snapshot string itself as `img.src`. A browser turns an empty `src` into the document's URL when it is read back, and the model sends the empty string instead.
- Client.Board.constructor: whether the canvas is mounted and whether the socket exists are fixed for the board's lifetime. In the component, the socket appears after the first render.
- client/src/RoomPage.tsx, client/src/CanvasDrawing.tsx and client/src/App.tsx are not part of this model.
