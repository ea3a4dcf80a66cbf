# Proofs about a 9P2000 library

The library speaks 9P2000 and 9P2000.u: a server with a queue of requests per tag, flush chains and
counted fids; a client that walks, reads and writes in pieces that fit a message; a namespace that walks
through mounted servers; a codec with a printer for each message; and small servers built on these.  This
project models those parts in Dafny and proves what they promise: over every interleaving where the code
runs concurrently, over every input where it computes, over every sequence of calls where it keeps state.

`dafny verify dfyconfig.toml` checks all of it.

## How it is organised

| file | models | form |
|---|---|---|
| `Engine.dfy` | requests, tag chains, `process`, `Respond`, `Flush` (p/srv/srv.go), `flush` (p/srv/fcall.go), the insertion of `recv` (p/srv/conn.go) | transition system, one step per section under a lock |
| `FlushProtocol.dfy` | the engine when tags are not reused while outstanding and flushes aim at ordinary requests | inductive invariant over all runs |
| `TagQueue.dfy` | the engine when requests share tags and nothing is flushed | inductive invariant over all runs |
| `SharedTags.dfy`, `LostFlush.dfy`, `LostFlushRun.dfy`, `GroupRest.dfy` | the engine when ordinary requests share tags and are flushed, what becomes of flushes that are handed on, and which requests are answered when all goroutines are at rest | inductive invariants over all runs; a run built step by step |
| `Cancel.dfy` | the engine when the file server has no flush operation; any client | inductive invariant over all runs |
| `Rest.dfy` | the engine when all goroutines are at rest | inductive invariant over all runs, with those above |
| `Outcome.dfy` | what becomes of a request that arrived, was flushed, or was answered by the file server | from any step of any run to its end |
| `FidRefs.dfy`, `FidServed.dfy` | `FidGet`, `FidNew`, `IncRef`, `DecRef` and the handlers that retain and release fids | transition system, one step per section under a lock |
| `Codec.dfy`, `Packer.dfy` | all messages: wire format, `Unpack`, every `Pack*` | functions for the format; a class `Fcall` that writes its buffer |
| `WireFormat.dfy` | each message field by field, and which bytes the parser accepts | relations between messages and bytes, and the parser run backwards |
| `ShortMessages.dfy` | which messages make `Unpack` panic | a recursive predicate on lists of fields |
| `Framing.dfy` | the loop of `recv` in p/srv/conn.go | class over a byte array that is renewed |
| `RamFile.dfy`, `RamTree.dfy` | the block files of p/srv/examples/ramfs/ramfs.go and their shared blocks; any sequence of creations, reads, writes and truncations | classes over arrays |
| `ChunkedIO.dfy` | `WriteAt`, `Writen`, `ReadAt`, `Readn` of the client on such a file | methods with loops |
| `NsBlock.dfy`, `NsWalk.dfy` | `Walk` of a namespace and of a fid (p/chan9/walk.go) | reference functions and the walk in blocks; class `Namespace` |
| `PathNames.dfy` | `ParseName`, `PathJoin`, `String` (p/chan9/nselem.go) | methods with loops, against functions |
| `IdPool.dfy`, `Routing.dfy` | the bitmap of ids, requests and their tags (p/clnt/pool.go, p/clnt/clnt.go) | classes over a byte array and a linked list |
| `Rpc.dfy` | callers, the client, the wires and a server that answers in any order (p/clnt/clnt.go) | class `Session` over the client of `Routing` |
| `FileWalk.dfy` | `FWalk`, `Clunk`, `Remove` of the client against `walk`, `clunk`, `remove` of the server | a class for each side |
| `DirList.dfy` | directory reads of the server, `Readdir` of the client | class and methods with loops |
| `Siblings.dfy` | `Add`, `Remove`, `Rename`, `Find` of a file (p/srv/file.go) | class over doubly linked lists; class `Tree` of all files |
| `RingLog.dfy` | the ring of p/log.go | class over an array |

The engine and the fid counts are protocols between goroutines: what matters is every order in which
sections under a lock may run, so they are transition systems on values.  A `Past` in a request and the
`retained`, `stage` and `destroyed` of a fid record what happened; no step reads them to decide anything.
The `log` of a `Rpc.Session`, the `walked` and `stale` of a client and the `all` of a tree are such records too.
In `Engine`, `Step` names the moves and `Apply` what each does; `Client` says what the client, or the file
server, keeps to.

## What the code does not keep

Each of these is in a lemma or a contract here: an input that shows it, the exact condition under which the
promise holds, or the result that the code gives instead.

- When the oldest request of a tag is answered while flushes wait for it, they are handed to the next
  request of the tag.  If the client has flushed that one too, the code links the moved flushes through `next`
  instead of `flushreq` (p/srv/srv.go:461) and they are on no chain any more
  (`LostFlush.FlushesMoveOn`: exactly then).  They are never answered (`LostFlush.MovedFlushIsLost`);
  `LostFlushRun.FlushLostAtRest` is a run to its end in which it happens.  All others are: when the goroutines are
  at rest, a Tflush is answered if and only if it waits for no unanswered request and hangs on no such `next`
  (`GroupRest.FlushesAtRest`).
- The counts of a fid are right as long as `FidGet` counts a fid that is still referenced and a handler gives up
  what was retained, and exactly then (`FidRefs.GuardsAreExact`, from `FidRefs.FidGetIsSound` and
  `FidRefs.ReleaseIsSound`).  The code secures neither.  `FidGet` looks a fid up under one lock and counts it under
  another, and a Tclunk in between ends the fid (`FidRefs.DestroyedTwice`); two Tclunks of one fid at once both
  give up the one reference that is retained, and refcount ends at -1 (`FidRefs.ClunkedTwice`); a Tclunk of the
  new fid of a Twalk that is not done gives up one that is not retained yet (`FidRefs.ClunkedTooSoon`).  In each,
  `FidDestroy` runs twice for one fid.  A client keeps clear of all three if it sends a Tclunk or Tremove only
  for a retained number that no other unfinished one is to end, and the halves of a lookup and of a last DecRef are
  not interleaved with anything (`FidRefs.AtomicGuards`), or, whatever is interleaved, if no other request uses a
  number while one creates or ends it (`FidRefs.OrderlyStep`).
- A fid with the NOREMAP bit crosses no mount point in a block, where a walk one name at a time would
  (`NsBlock.NoremapWalksDiffer`).  `NsBlock.WalksAgree` says when the walks agree, for any unions;
  `NsBlock.BareWalksAgree` and `NsBlock.MountPassedBy` give conditions to look up in the mount table.
- `Namespace.Walk` returns no fid and no error if the last union member answers a Twalk whose first name it
  has not with an empty Rwalk instead of an Rerror, and only then (`NsWalk.Namespace.Walk`, `NsBlock.RefusedAtOnce`).
  The library's own server never does.
- A path whose sixteenth element is a plain file, followed by `..`, can be walked in one go but not by
  `FWalk` (`FileWalk.FileAtBoundary`; `FileWalk.Clnt.FWalk` gives the condition).
- The tables of least message sizes are the wrong way round (p/unpack.go:45-54 with p/p9.go:222-294,
  `WireFormat.TablesSwapped`).  So plain 9P2000 rejects every Rwstat, and other messages are checked against the size of the other dialect
  (`Codec.RoundTrip`).  `MinSize` of the model has the sizes as the code uses them.
- A plain Tattach is unpacked with `Unamenum` 0, a plain Tauth with `NOUID` (p/unpack.go:80-88 and 109-115); `Codec.Wire` says so.
- `Unpack` of a Twrite whose count is not the length of its data cuts the data or fills it up with zeros
  (p/unpack.go:187-190, `Codec.WriteArrives`), a Twstat with an entry that does not fit is accepted with the part
  that was read (p/unpack.go:209-212, `WireFormat.CutTwstat`).
- `Unpack` panics, and with it the server, exactly if a message passes the test of its size and then ends inside a
  field of fixed width or inside the length of a string or list (`ShortMessages.PanicsIffRunsOut`); the tables
  leave the header out, so a Tread of sixteen bytes does (`ShortMessages.ShortTread`).
- The size test of a Tread adds 24 to the count in 32 bits (p/srv/fcall.go:302), so the last twenty-four counts pass
  it (`DirList.CountsThatPass`).  From 2^32-4 on `InitRread` wraps too (p/packr.go:134): the header fits, the data
  would end before it starts, and the server panics (`Packer.Fcall.InitRread`, `DirList.LargestRead`).  Below that
  `InitRread` fails, which the file server does not look at (p/srv/file.go:421): the entries go into what an earlier
  reply left in the buffer, or it panics if that was shorter than the header of an Rread (`DirList.DirFid.Read`).
- `Writen` and `Readn` take lengths modulo 2^32: a write of 2^32 bytes or more fails before it is finished
  (`ChunkedIO.Writen`).  `Readn` returns 0 and EOF if the file ends before the buffer is full,
  though its comment promises the number of bytes read (p/clnt/read.go:63-72, `ChunkedIO.Readn`).
- `String` of an empty relative list, or of a relative list whose first element starts with `#`, parses back
  to something else (`PathNames.PrintParse`).
- The tag pool hands out 0xFFFF, which is NOTAG, if all smaller ones are held; the fid pool hands out a number that
  is already held from 2^32 fids on (`IdPool.Pool.GetId`).
- A write of no bytes behind the end of a file fills it up with zeros (`ChunkedIO.WriteAt`).
- `Readdir` stops in front of the first entry that does not fit one read and returns what it has without an
  error (`DirList.Readdir`).
- `Remove` of a file whose `Add` failed with "file already exists" empties the list of the directory it was
  to go to, because `Add` sets `Parent` first (p/srv/file.go:160); so it does harm exactly if that list was
  not empty (`Siblings.File.Remove`).
- If the Clunk operation of a file fails, the server keeps the fid and the client frees its number
  (`FileWalk.Clnt.Clunk`; the numbers that go astray so are the `stale` of `FileWalk.Clnt.Run`).

## Model

| member | source | states |
|---|---|---|
| Engine.AnsweredAtMostOnce | p/srv/srv.go:432-497 | In every run, whatever the client sends, no request is put on reqout twice, and only requests whose reqResponded bit is set and whose reply was not suppressed are put there |
| Engine.BaseStep | p/srv/srv.go:269-506 | Every step keeps that each request is answered by the one activation of Respond that set its reqResponded bit, and is on reqout exactly if its reply was settled and not dropped |
| Engine.BaseRun | p/srv/srv.go:269-506 | The same invariant holds at the end of every run |
| FlushProtocol.InvRun | p/srv/srv.go:432-506 | In every run without reused outstanding tags, the flushes of each request are exactly the list its flushreq heads, and answering walks that list in order |
| FlushProtocol.FlushStaysOnChain | p/srv/fcall.go:153-158 | A Tflush that found its victim is reachable from the victim's flushreq from then on |
| FlushProtocol.RflushFollowsVictim | p/srv/srv.go:478-496 | Each Rflush on reqout comes after the reply of its victim, unless that reply was dropped and never comes |
| FlushProtocol.DroppedWasFlushed | p/srv/srv.go:478-480 | A request loses its reply only if some Tflush found it |
| FlushProtocol.NoFlushIsLost | p/srv/srv.go:491-496 | When every goroutine is at rest, each flush whose victim was answered has its Rflush on reqout |
| FlushProtocol.MovedFlushSurvives | p/srv/srv.go:446-466 | In any state: a flush handed to the next request of the tag is on a chain if and only if no flush waited there before |
| SharedTags.InvRun | p/srv/srv.go:432-506 | In every run in which ordinary requests share tags and are flushed, what flushreq leads to waits for that request or an older one, and while its predecessor is unanswered a request's list holds exactly the flushes that found it |
| LostFlush.HeldRun | p/srv/srv.go:446-496 | In every such run at most one request that has not handed its flushes on leads to a given flush, and once that flush is being answered, what leads to it is being answered too or was |
| LostFlush.FlushesMoveOn | p/srv/srv.go:446-466 | In every such run, when a request is answered with another of its tag behind it, every flush on its chain goes to the chain of that one if and only if the client has not flushed that one |
| LostFlush.MovedFlushIsLost | p/srv/srv.go:446-496 | Otherwise none of those flushes is on reqout, however the run goes on |
| LostFlush.LostForever | p/srv/srv.go:432-506 | A set of flushes that nothing to be answered leads to stays so, in every continuation of every run |
| LostFlushRun.FlushLostAtRest | p/srv/srv.go:446-466 | Some run comes to rest with the first of two requests of a tag answered and the Tflush that waited for it not on reqout and led to by no other request |
| LostFlushRun.FlushLost | p/srv/srv.go:446-466 | In no run that goes on from the reply of that request is the Tflush answered |
| GroupRest.RestRun | p/srv/srv.go:432-506 | In every such run each Tflush that found a request and is not answered is in hand, or led to by a request that has not handed its flushes on, or by the next of another Tflush; and each started request has its goroutine or is saved or answered |
| GroupRest.FlushesAtRest | p/srv/srv.go:446-496 | When every goroutine is at rest, a Tflush is on reqout if and only if it is not on the chain of a request that is not answered yet and does not hang on the next of another Tflush |
| GroupRest.RequestsAtRest | p/srv/srv.go:478-489 | And an ordinary request is on reqout, or dropped because some Tflush found it, or saved with the file server, or not started behind an older one of its tag that is not answered |
| TagQueue.InvRun | p/srv/conn.go:121-134 | In every run without flushes each tag's chain, its map entry and its started oldest member stay consistent |
| TagQueue.ChainOfTag | p/srv/conn.go:121-134 | The requests of a tag form a doubly linked list, newest first, headed by the map entry; none of them is answered on reqout, and those that are not the oldest are not started |
| TagQueue.StartedAfterOlderReply | p/srv/srv.go:482-489 | A request queued behind another of its tag is started only when the older reply is on reqout |
| TagQueue.RepliesInOrder | p/srv/srv.go:478-489 | A reply on reqout comes after the reply of the request it was queued behind |
| TagQueue.OldestIsStarted | p/srv/srv.go:482-489 | When every goroutine is at rest the oldest request of each tag has been started |
| TagQueue.WithoutLast | p/srv/srv.go:448-450 | Taking the oldest request out of a tag's list leaves the others in place |
| Cancel.InvRun | p/srv/srv.go:269-293 | In every run with a file server that has no flush operation, a request handed to it is answered, or marked as worked on or saved and not marked for cancelling |
| Cancel.ServedIsNotDropped | p/srv/fcall.go:166-176 | A request that reached the file server unanswered keeps its reply in every later state, whatever is flushed |
| Cancel.ServedIsReplied | p/srv/fcall.go:166-176 | Once such a request is answered and all goroutines are at rest, its reply is on reqout |
| Rest.InvRun | p/srv/srv.go:269-293 | In every run, whatever the client sends, a request past its call of Process was handed over, and one past the end of process is saved or answered |
| Rest.FlushesAtRest | p/srv/srv.go:269-293 | With flushes and no reused tags: when all goroutines are at rest, an ordinary request is answered, dropped, or saved with the file server, and a Tflush is answered unless the request it flushes is with the file server |
| Rest.QueuesAtRest | p/srv/srv.go:482-489 | With requests that share tags: when all goroutines are at rest, a request is answered, or is the oldest of its tag and saved with the file server, or waits, not started, behind the older one it is chained to |
| Outcome.StepTicks | p/srv/srv.go:501-506 | In any state: a step marks a request as flushed if and only if it cancels it, as a Tflush does before anyone worked on it, or the file server's Flush operation later; the mark is never taken back, and tag, kind and the Tflushes that found it stay |
| Outcome.ReplyOrDrop | p/srv/srv.go:432-480 | In every run: when a request is claimed by its first call of Respond, its reply is sent if and only if it is not marked as flushed at that moment |
| Outcome.CancelledIsDropped | p/srv/fcall.go:166-179 | In every run: a request that a Tflush, or the Flush operation of the file server, cancels before it is answered never gets a reply, and counts as answered when all goroutines are at rest |
| Outcome.UncancelledIsSent | p/srv/srv.go:478-480 | In every run at rest, an answered request that no step has cancelled has its reply on reqout |
| Outcome.ServerAnswers | p/srv/srv.go:432-480 | In every run at rest, what the file server answered is answered, and its reply is on reqout unless it was cancelled |
| Outcome.Arrived | p/srv/conn.go:121-134 | In every run, a message that came in is a request with its tag and kind from then on |
| Outcome.CancelIsAnswered | p/srv/fcall.go:153-179 | If tags are not reused while outstanding, the Tflush that had a request cancelled has its Rflush on reqout at rest |
| Outcome.GroupCancelIsAnswered | p/srv/fcall.go:153-179 | If ordinary requests share tags, so has every Tflush that waits for a cancelled request with none queued behind it |
| FidRefs.SoundStep | p/srv/srv.go:512-575 | Every step that looks up a referenced fid and releases a retained one keeps refcount, pool and FidDestroy right for every fid |
| FidRefs.OrderlyStep | p/srv/fcall.go:183-238 | A client that creates, clunks or removes a number with one request at a time always meets those two conditions |
| FidRefs.AtomicGuards | p/srv/srv.go:512-521 | So does a client that sends a Tclunk or Tremove only for a retained number that no other unfinished one is about to end, if the halves of a lookup and of a last DecRef are not interleaved with anything; other requests may use the number meanwhile |
| FidRefs.AtomicStep | p/srv/srv.go:512-521 | Every step of such a client keeps this, and refcount, pool and FidDestroy right for every fid |
| FidRefs.RetainedStays | p/srv/srv.go:548-575 | A retained fid stays in the pool, retained, until the one request that is to end it moves |
| FidRefs.SoundRun | p/srv/srv.go:306-426 | All these invariants hold at the end of every run of such a client |
| FidRefs.CountsAreExact | p/srv/srv.go:548-575 | In every state, refcount is one if retained plus the references requests hold; a referenced fid is in the pool; FidDestroy has run once if the fid is gone and never otherwise |
| FidRefs.AtRest | p/srv/srv.go:412-425 | When all requests are done, a fid is retained, in the pool and counted once, or gone and destroyed once |
| FidRefs.FidGetIsSound | p/srv/srv.go:512-521 | The counting half of FidGet keeps the fid sound if and only if the fid is still referenced |
| FidRefs.ReleaseIsSound | p/srv/srv.go:558-575 | Giving up what a client retained keeps the fid sound if and only if it is retained |
| FidRefs.GuardsAreExact | p/srv/srv.go:512-575 | From a sound state, a step keeps refcount, pool and FidDestroy right for every fid if and only if it meets those two conditions |
| FidRefs.DestroyedTwice | p/srv/srv.go:512-521 | Some run of a client that clunks a fid while another request looks it up calls FidDestroy twice for one Fid |
| FidRefs.ClunkedTwice | p/srv/fcall.go:399-403 | Some run with two Tclunks of one fid served at once calls FidDestroy twice for it and leaves refcount at -1 |
| FidRefs.ClunkedTooSoon | p/srv/fcall.go:383-403 | So does some run with a Tclunk of the new fid of a Twalk that has not been answered, and calls FidDestroy twice |
| FidRefs.PostWeighs | p/srv/srv.go:382-426 | PostProcess gives back exactly the references the request held |
| FidServed.ServedAlone | p/srv/srv.go:306-426 | A request served alone ends, and leaves the pool as a table without counts would be: a number is added by an attach or a full walk that succeeds, goes with a clunk that succeeds or any remove, and stays otherwise; every fid in the pool is then retained and counted once, every other is destroyed once |
| FidServed.Gets | p/srv/srv.go:311-319 | Process finds the fid of the request and holds one reference to it |
| FidServed.AttachServed | p/srv/fcall.go:96-146 | A Tattach or Tauth adds its number if it is new and the file server agrees, and nothing otherwise |
| FidServed.PlainServed | p/srv/fcall.go:399-411 | A Tclunk that succeeds and any Tremove take the fid away; other requests leave the pool alone |
| FidServed.WalkToNew | p/srv/fcall.go:200-238 | A Twalk to a new number adds it if every name was walked, and nothing otherwise |
| FidServed.WalkInPlace | p/srv/fcall.go:209-212 | A Twalk to its own number, to one in use, or refused, leaves the pool alone |
| Codec.RoundTrip | p/unpack.go:14-225 | Unpacking a packed message with its tag, followed by any bytes, gives its wire fields and takes exactly its length, if and only if the dialect is 9P2000.u or the message is not Rwstat; a plain Rwstat is rejected |
| Codec.ArrivesAsSent | p/unpack.go:14-225 | Unpacking the packet of a message gives back that very message if and only if the dialect has room for all its fields, the data of a Twrite are as many as it counts, an entry has its own size, and it is no plain Rwstat |
| Codec.WriteArrives | p/unpack.go:183-194 | Whatever count and data of a Twrite: as many bytes arrive as it counts, those of the data first and zeros behind them |
| WireFormat.AcceptedBytes | p/unpack.go:14-225 | Whatever the parser accepts is a size, a type, a tag and fields that the message it returns is printed as, and nothing more; only the number of a user, the size in front of an entry, a miscounted Twrite and a cut Twstat have other forms |
| WireFormat.PacketLaid | p/packt.go:8-255 | Each message of both dialects as its size, its type, its tag and its fields, each field in its place and width |
| WireFormat.EntryLaid | p/p9.go:442-464 | A directory entry, field by field |
| WireFormat.LowestFirst | p/p9.go:391-415 | Numbers go lowest byte first |
| WireFormat.AttachWithoutNumber | p/unpack.go:109-115 | In 9P2000.u a Tattach without the number of the user is accepted, with NOUID |
| WireFormat.AuthWithoutNumber | p/unpack.go:80-88 | And so is a Tauth |
| WireFormat.HeaderAlone | p/unpack.go:14-56 | A header without fields is accepted exactly if its type has none and it is no plain Rwstat, makes Unpack panic exactly for twelve types whose table entry it passes, and is refused otherwise |
| WireFormat.CutTwstat | p/unpack.go:209-212 | A Twstat whose entry is cut inside a string is accepted with the part that was read |
| WireFormat.NameCut | p/p9.go:442-464 | Of an entry cut in its name, the fixed fields have been read |
| WireFormat.TablesSwapped | p/unpack.go:45-54 | The size table looked up in one dialect has the least sizes, without the header, of the other; stats and Rwstat aside |
| Codec.BodyRoundTrip | p/unpack.go:56-219 | The same for the body of every message in both dialects |
| Codec.ValueOfBytes | p/p9.go:298-315 | Reading a number of n little-endian bytes gives back what was written |
| Codec.PutStr | p/p9.go:317-330 | Reading a string gives the string and what followed it |
| Codec.PutQid | p/p9.go:332-338 | Reading a qid gives the qid and what followed it |
| Codec.PutStat | p/p9.go:340-384 | Reading a packed directory entry gives its fields as its dialect carries them, and what followed it |
| Codec.PStat | p/p9.go:433-464 | A packed entry has the length that statsz computes |
| Codec.DecodeIsLocal | p/unpack.go:31-40 | What Unpack makes of a buffer depends on the bytes its size field covers only |
| Codec.LargeEnough | p/unpack.go:45-54 | Every packed message, but for a plain Rwstat, is as large as the table demands |
| Codec.UnpackNames | p/unpack.go:131-138 | The loop over the names of a Twalk reads them as the reference parser does |
| Codec.UnpackQids | p/unpack.go:141-145 | The loop over the qids of an Rwalk reads them as the reference parser does |
| Codec.Unpack | p/unpack.go:14-225 | The whole parser does what Decode says, with its error and its index panic as outcomes |
| Packer.Fcall.PInt16 | p/p9.go:391-395 | Writes the two bytes at the cursor and no other |
| Packer.Fcall.PInt32 | p/p9.go:397-403 | Writes the four bytes at the cursor and no other |
| Packer.Fcall.PInt64 | p/p9.go:405-415 | Writes the eight bytes at the cursor and no other |
| Packer.Fcall.PString | p/p9.go:417-423 | Writes length and bytes at the cursor and no other |
| Packer.Fcall.PutQid | p/p9.go:425-431 | Writes the thirteen bytes of a qid at the cursor and no other |
| Packer.Fcall.PutStat | p/p9.go:442-464 | Writes a directory entry at the cursor as its dialect has it |
| Packer.Fcall.PackCommon | p/p9.go:523-539 | Writes size, type and NOTAG, or fails and changes nothing if the buffer is too small |
| Packer.Fcall.SetTag | p/p9.go:518-521 | Turns the packet of a message into that of the same message with the tag |
| Packer.Fcall.PackVersion | p/packt.go:8-21 | Tversion and Rversion: the buffer holds the packet of the message, or it is too small and nothing changes |
| Packer.Fcall.PackTauth | p/packt.go:24-47 | The same for Tauth |
| Packer.Fcall.PackTattach | p/packt.go:64-89 | The same for Tattach |
| Packer.Fcall.PackTflush | p/packt.go:50-59 | The same for Tflush |
| Packer.Fcall.PackTwalk | p/packt.go:92-116 | The same for Twalk, with a loop over the names |
| Packer.Fcall.PackTopen | p/packt.go:119-131 | The same for Topen |
| Packer.Fcall.PackTcreate | p/packt.go:136-163 | The same for Tcreate |
| Packer.Fcall.PackTread | p/packt.go:166-180 | The same for Tread |
| Packer.Fcall.PackTwrite | p/packt.go:183-200 | The same for Twrite, whose count need not be the length of its data |
| Packer.Fcall.PackNumber | p/packt.go:203-236 | The same for Tclunk, Tremove, Tstat and Rwrite |
| Packer.Fcall.PackTwstat | p/packt.go:241-255 | The same for Twstat |
| Packer.Fcall.PackRerror | p/packr.go:39-58 | The same for Rerror |
| Packer.Fcall.PackQid | p/packr.go:24-34 | The same for Rauth and Rattach |
| Packer.Fcall.PackRwalk | p/packr.go:81-97 | The same for Rwalk, with a loop over the qids |
| Packer.Fcall.PackOpened | p/packr.go:100-127 | The same for Ropen and Rcreate |
| Packer.Fcall.InitRread | p/packr.go:133-144 | Makes room for count bytes of data after the header of an Rread; or, the size taken in 32 bits, is refused if and only if the packet does not fit, and panics if and only if the count is 2^32-4 or more and the small packet fits |
| Packer.Fcall.SetRreadCount | p/packr.go:148-158 | Cuts such an Rread to the bytes that were read: the buffer then holds the packet of that shorter message; panics if and only if there is no packet as long as the header of an Rread |
| Packer.Fcall.PackRread | p/packr.go:161-170 | The same for Rread, with data of any length; from 2^32-4 bytes on the length wraps as in InitRread |
| Packer.Fcall.PackEmpty | p/packr.go:61-65 | The same for the replies without fields |
| Packer.Fcall.PackRstat | p/packr.go:201-213 | The same for Rstat |
| ShortMessages.PanicsIffRunsOut | p/unpack.go:14-225 | In both dialects, Unpack indexes past the end if and only if the header test passes and the fields of the type run out inside a fixed-width field or the length of a string or list |
| ShortMessages.ShortTread | p/unpack.go:170-173 | A Tread of sixteen bytes passes the table and panics, in both dialects |
| ShortMessages.PanicEndsLoop | p/srv/conn.go:83-88 | If such a message is at the front of what a client sent, the receiving loop delivers nothing and ends in a panic |
| Framing.Conn.Recv | p/srv/conn.go:46-138 | However the net cuts the stream into reads, recv delivers exactly the messages of the split by size fields up to the first bad one, and ends as the split does: at the end of the stream, or with a message that is too large, invalid, or one the parser panics on; bytes of delivered messages are never overwritten |
| Framing.Conn.Cut | p/srv/conn.go:66-138 | The inner loop delivers every whole message in the buffer, stops for the rest of one, and tells the three kinds of bad message apart |
| Framing.Conn.Renew | p/srv/conn.go:53-58 | A new buffer keeps the bytes that wait and leaves room for a message |
| Framing.Conn.Fill | p/srv/conn.go:60-65 | One read appends its bytes to those that wait |
| Framing.FrontMessage | p/srv/conn.go:67-88 | The size test, the incomplete message and the parser agree with the split of the stream, whatever comes later |
| Framing.UnpackerIsLocal | p/unpack.go:31-40 | Unpack is a parser the loop can rely on: it takes what the size field says, at least seven bytes |
| Framing.OnePacket | p/srv/conn.go:83-137 | A packed message at the front of a stream is the first of its split |
| Framing.StreamArrives | p/srv/conn.go:46-138 | A stream of packed messages, each within Msize, splits into exactly those messages |
| RamFile.RFile.Read | p/srv/examples/ramfs/ramfs.go:36-67 | Returns the bytes of the flat file from offset, as many as there are; holes read as zeros; nothing else in the buffer changes |
| RamFile.RFile.Write | p/srv/examples/ramfs/ramfs.go:69-104 | The flat file is overlaid with the data, grown with zeros if it was shorter; other files and their blocks are unchanged |
| RamFile.RFile.trunc | p/srv/examples/ramfs/ramfs.go:163-173 | The flat file is cut or extended with zeros; other files and their blocks are unchanged |
| RamFile.RFile.shrink | p/srv/examples/ramfs/ramfs.go:176-201 | Blocks past the end go to the pool, in order, as far as there is room; the rest of the last one is zeroed |
| RamFile.RFile.expand | p/srv/examples/ramfs/ramfs.go:203-216 | Holes are added up to the new length |
| RamFile.RFile.FillHole | p/srv/examples/ramfs/ramfs.go:82-95 | A hole becomes a zeroed block that no other file and no place in the pool holds: the oldest of the pool, or a new one if that is empty |
| RamFile.RFile.WriteBlocks | p/srv/examples/ramfs/ramfs.go:79-103 | The copy loop changes the bytes from offset on and no others |
| RamFile.RFile.ReadBlocks | p/srv/examples/ramfs/ramfs.go:49-64 | The copy loop fills the buffer with the bytes from offset on |
| RamFile.Ramfs.TakeBlock | p/srv/examples/ramfs/ramfs.go:82-91 | Gives a zeroed block that nobody holds: the oldest of the pool, or a new one if that is empty |
| RamFile.Ramfs.GiveBack | p/srv/examples/ramfs/ramfs.go:192-196 | Puts a block in the pool if there is room, and no block is held twice |
| RamFile.Expanded | p/srv/examples/ramfs/ramfs.go:203-216 | Added holes extend the flat file with zeros, given that the slack was zero |
| RamFile.Shrunk | p/srv/examples/ramfs/ramfs.go:176-201 | Cutting the blocks cuts the flat file and leaves zero slack |
| RamFile.Written | p/srv/examples/ramfs/ramfs.go:79-103 | Patching the blocks overlays the flat file and leaves zero slack |
| RamTree.Run | p/srv/examples/ramfs/ramfs.go:36-216 | Any sequence of creations, reads, writes and truncations of files that share recycled blocks gives the results and contents of independent flat arrays |
| RamTree.ReadsBack | p/srv/examples/ramfs/ramfs.go:36-173 | In those arrays: what was written is read back, and other files and what lies in front of it read as before |
| RamTree.NewAndCut | p/srv/examples/ramfs/ramfs.go:36-216 | A new file is one more and empty; a file cut or grown reads as its front, or with zeros behind |
| RamTree.Serve | p/srv/examples/ramfs/ramfs.go:36-173 | One operation, a creation among them, does to its flat array what it should and to the others nothing |
| RamTree.Create | p/srv/examples/ramfs/ramfs.go:106-110 | A new file is one more, empty, flat array |
| ChunkedIO.WriteAt | p/clnt/write.go:12-32 | One message, of no bytes too, writes at most Iounit bytes; it passes the server's size check and the client's buffer if and only if the length does not wrap to a small number |
| ChunkedIO.Writen | p/clnt/write.go:54-72 | Returns the whole length, without an error, if and only if the buffer is shorter than 2^32; the file is then as one flat write of it would leave it, and otherwise as one of the part that was written |
| ChunkedIO.ReadAt | p/clnt/read.go:49-61 | One message reads what is there, at most Iounit bytes |
| ChunkedIO.Readn | p/clnt/read.go:66-84 | Returns the whole length and exactly the bytes of the file if and only if they lie within the file and the length within 32 bits; otherwise 0 and an error |
| ChunkedIO.WroteMore | p/clnt/write.go:66-68 | Two pieces one after the other are one write |
| NsBlock.WalksAgree | p/chan9/walk.go:252-309 | For any unions and any number of names: the walk in blocks of sixteen and the walk that takes one name at a time, tries union members in order and looks for a mount after each, come to the same if and only if each file a block passes has what the reference would find there for the next name, or both walks fail |
| NsBlock.FaithfulAgrees | p/chan9/walk.go:252-309 | If every file is passed well, the walks come to the same union by the same path |
| NsBlock.AgreeingIsFaithful | p/chan9/walk.go:252-309 | If the walks reach the same by the same path, every file was passed well |
| NsBlock.BarePassesWell | p/chan9/walk.go:281-284 | A NOREMAP member passes its files well if its block meets no mount point, or only files with nothing but themselves mounted on them |
| NsBlock.BareWalksAgree | p/chan9/walk.go:252-309 | If each NOREMAP member that a block starts from is such a one, the two walks come to the same, for any unions and any number of names |
| NsBlock.OtherDevice | p/chan9/walk.go:281-284 | A mount from another device that a NOREMAP member passes by is not passed well |
| NsBlock.MountPassedBy | p/chan9/walk.go:252-309 | Where a block passes such a mount by and the walk reaches a file, the name-by-name walk fails or ends elsewhere |
| NsBlock.BlockWalkIsNameWalk | p/chan9/walk.go:252-309 | Without NOREMAP fids the two walks always come to the same |
| NsBlock.OneTurn | p/chan9/walk.go:252-309 | One block takes the name-by-name walk along if it passes its files well: past missing members, into a mount, or to the end of the block |
| NsBlock.NoremapCrossesNothing | p/chan9/walk.go:281-284 | A block from a NOREMAP member, of any union and any names, crosses no mount point |
| NsBlock.NoremapWalksDiffer | p/chan9/walk.go:258-284 | An instance where the two walks reach different files |
| NsBlock.RefusedHasNot | p/chan9/walk.go:258-276 | The member whose answer fails a walk with no qids is the last of its union and has not the name looked for there |
| NsBlock.RefusedAtOnce | p/chan9/walk.go:258-276 | An instance: one name that a single file has not |
| NsWalk.Namespace.Walk | p/chan9/walk.go:231-317 | Terminates; ends with one more fid, kept by its server at the file and union that the walk in blocks reaches, and the name-by-name walk too if every file is passed well, its path longer by one file per name; or with no more fids than before, and then with no error if and only if the last member tried answered a missing first name with an empty Rwalk |
| NsWalk.Namespace.FidWalk | p/chan9/walk.go:22-58 | One Twalk: a new fid moves only if all names were walked, one in place may move part of the way; the qids are those of the longest walkable part |
| NsWalk.Namespace.WalkBlock | p/chan9/walk.go:252-309 | One turn of the loop does what Block says and keeps exactly one fid in hand, or none if the walk fails |
| NsWalk.Namespace.FidAlloc | p/chan9/walk.go:249 | A number not in use is taken and no server knows it |
| NsWalk.Namespace.Clunk | p/chan9/walk.go:314-316 | The fid in hand is given up on both sides and nothing else |
| PathNames.ParseKeepsMeaning | p/chan9/nselem.go:71-80 | From every directory, the cleaned elements lead where the raw components lead |
| PathNames.ParseIsClean | p/chan9/nselem.go:71-80 | The elements are neither empty nor `.`, hold no slash, and have `..` only in front, and none if rooted |
| PathNames.ParseDecidesMeaning | p/chan9/nselem.go:81-132 | Two names with the same reference get the same elements if and only if they lead to the same place from every directory |
| PathNames.ParseName | p/chan9/nselem.go:81-132 | The loop over the characters computes those elements and Mustbedir |
| PathNames.PrintParse | p/chan9/nselem.go:134-148 | Parsing the printed form of a parsed name gives it back, if and only if it is not relative and empty or starting with `#` |
| PathNames.PathJoin | p/chan9/nselem.go:15-47 | Pops one element for each leading `..` and appends the rest; files stay beside their names |
| PathNames.JoinIsResolve | p/chan9/nselem.go:15-47 | From a plain path, joining is resolving element by element if and only if what follows the leading `..` is plain |
| PathNames.CleanIsCanonical | p/chan9/nselem.go:71-80 | Clean relative lists that lead to the same place from every directory are equal |
| IdPool.LowestZero | p/clnt/pool.go:7-40 | The table gives the lowest zero bit of every byte but 0xFF |
| IdPool.Pool.GetId | p/clnt/pool.go:50-84 | Gives the least id not held and marks it, and it alone; or, if the map is full and as large as it gets, none, and one more caller waits; gives NOTAG if and only if all smaller tags are held, and a number that is held if and only if the least free one is 2^32 or more |
| IdPool.Pool.Grow | p/clnt/pool.go:61-70 | A full map grows with zeros, or is as large as it gets |
| IdPool.Pool.Claim | p/clnt/pool.go:77-79 | The first byte with a zero bit gives the least id not held |
| IdPool.Pool.PutId | p/clnt/pool.go:86-97 | Hands the id to a waiting caller without freeing it, or frees it, and it alone |
| Routing.Clnt.ReqAlloc | p/clnt/clnt.go:424-435 | Gives the oldest request of the cache, or else a new one with the least tag not held, or none, exactly if all are held, and then one more caller waits; no other caller holds it, and tags of all requests stay distinct and marked |
| Routing.Clnt.Rpcnb | p/clnt/clnt.go:107-135 | Appends the request to the list, or changes nothing if the connection is down |
| Rpc.Session.Run | p/clnt/clnt.go:107-236 | After any sequence of allocating, sending, answering in any order, receiving and freeing, with tags reused through cache and pool: callers, list and wires hold what the moves make of them, each request back with its caller carries the reply made for its own last sending, no other request carries one, and the connection was not given up |
| Rpc.Session.Do | p/clnt/clnt.go:107-236 | One move does what it should to callers, list and wires, and nothing else |
| Rpc.Session.Receive | p/clnt/clnt.go:210-236 | The next reply leaves the wire, and the waiting request with its tag leaves the list with that reply and goes to the end of those answered |
| Rpc.Session.Send | p/clnt/clnt.go:107-135 | The request leaves its caller for the end of the list, and its message goes on the wire |
| Rpc.Session.Allocate | p/clnt/clnt.go:424-435 | A caller gets one more request, unless the cache is empty and no tag is free |
| Rpc.OneCall | p/clnt/clnt.go:107-236 | What a request that is sent, answered and received has is the reply to that sending |
| Rpc.OneLife | p/clnt/clnt.go:424-452 | Of a request that is allocated, sent, answered, received and freed nothing is left |
| Rpc.Session.TagsInFlight | p/clnt/clnt.go:107-236 | The tags on the wires are those of the waiting requests, each once |
| Rpc.Session.NobodyForgotten | p/clnt/clnt.go:210-236 | While a request waits, a message is with the server or on its way back |
| Rpc.Session.Arrive | p/clnt/clnt.go:210-215 | The next reply off the wire is the one made for the last sending of the waiting request whose tag it has, and there is such a request |
| Routing.Clnt.Reply | p/clnt/clnt.go:210-236 | A reply goes to the only waiting request with its tag, which leaves the list; the others keep their order and get nothing; a reply for no request ends the connection |
| Routing.Clnt.UnlinkFrom | p/clnt/clnt.go:225-235 | Taking one request out leaves the list well linked in both directions |
| Routing.Clnt.ReqFree | p/clnt/clnt.go:437-452 | The request goes to the end of the cache if there is room; otherwise its tag goes to a waiting caller, or back to the pool if none waits |
| Routing.OwnReply | p/clnt/clnt.go:210-215 | While a request waits, searching its tag from the front finds it and no other |
| FileWalk.WalkConcat | p/srv/file.go:306-330 | Walking two lists of names one after the other is walking their concatenation |
| FileWalk.AboveRoot | p/srv/file.go:117 | Any number of `..` at the root stays at the root |
| FileWalk.FileAtBoundary | p/clnt/walk.go:77-97 | A path for which walking in blocks fails although every element exists |
| FileWalk.LeadingSlashes | p/clnt/walk.go:53-61 | Dropping leading slashes does not change the names of a path |
| FileWalk.Srv.WalkNames | p/srv/file.go:306-330 | The loop walks as far as names are found, and no further |
| FileWalk.Srv.Walk | p/srv/fcall.go:183-238 | The new fid is retained at the file reached if all names are found; otherwise the server keeps the fids it had, but a fid walked in place moves as far as names are found |
| FileWalk.Srv.Clunk | p/srv/fcall.go:383-403 | The fid goes, unless it is unknown or the file's Clunk operation fails |
| FileWalk.Srv.Remove | p/srv/fcall.go:405-411 | The fid goes, whether the file could be removed or not |
| FileWalk.Clnt.Walk | p/clnt/walk.go:17-44 | Succeeds if and only if the names fit a message, the start is a directory and every name is found; a failed walk leaves the fids of both sides as they were, but for a fid walked in place, which the server has moved as far as names were found |
| FileWalk.Clnt.Compact | p/clnt/walk.go:68-76 | Compaction in place leaves the non-empty names in order |
| FileWalk.NonEmptyConcat | p/clnt/walk.go:68-76 | The non-empty names of two lists one after the other are those of each |
| FileWalk.NonEmptyKeeps | p/clnt/walk.go:68-76 | No name is dropped but the empty ones, and none is there more often than before |
| FileWalk.NamesAsSpelled | p/clnt/walk.go:53-76 | The names of a path are the names it is spelled with, however many slashes are in front, between and behind |
| FileWalk.WalkIsTrail | p/srv/file.go:306-330 | All names lead to a file if and only if some trail of files does, each the parent of the one before or the file in it that the name says |
| FileWalk.FitsIsPacket | p/packt.go:92-116 | The room that is asked for is the size of the Twalk on the wire |
| FileWalk.Clnt.WalkBlocks | p/clnt/walk.go:77-97 | The loop reaches the file that one walk of all names reaches, if and only if each block starts at a directory and fits |
| FileWalk.Clnt.FWalk | p/clnt/walk.go:48-104 | Returns a fid at the file of the path, known to both sides, if and only if the names are found and walkable in blocks and the number did not go astray before; otherwise the id is returned and the server keeps no fid, even when a later block fails; for a path spelled with names and slashes that file is where exactly those names lead |
| FileWalk.Clnt.Clunk | p/clnt/close.go:10-26 | The number is free again; the server's fid is gone unless the file's Clunk operation failed, and then the number has gone astray; the two sides agree as before |
| FileWalk.Clnt.Remove | p/clnt/remove.go:12-28 | Number and fid are gone on both sides, whether the file could be removed or not |
| FileWalk.Clnt.Do | p/clnt/walk.go:48-104 | One call opens the file of the path last, or gives up one file and leaves the others where they are; a walk can fail besides only because it tries a number that has gone astray |
| FileWalk.Clnt.Run | p/clnt/walk.go:48-104 | After any sequence of FWalk, Clunk and Remove the server knows exactly the root, the fids the client holds, and those whose Clunk operation failed; if none fails, the client's files are those that the calls ask for |
| FileWalk.OpenAndClose | p/clnt/walk.go:48-104 | Opened last is the file that the names lead to, and closed again nothing is left of it |
| DirList.DirFid.Fill | p/srv/file.go:443-461 | Packs as many whole entries as fit into the room of the reply, in order, and leaves its type and tag alone |
| DirList.DirFid.Reply | p/srv/file.go:421-474 | The reply is the packet of the entries that fit count bytes, or, if these do not fit the buffer, what it was left with; it panics if and only if the count is 2^32-4 or more, or what was left is shorter than the header of an Rread |
| DirList.DirFid.Read | p/srv/fcall.go:299-349 | A count is refused if and only if its 32-bit sum with 24 is above Msize; a read from 0 or from where the last one ended then gives the next entries that fit and moves the offset by their bytes, unless it panics as Reply does; any other offset is refused |
| DirList.IsRread | p/packr.go:148-158 | A reply for which there was room is the packet of an Rread with those entries |
| DirList.CountsThatPass | p/srv/fcall.go:302-305 | The size test lets a count pass if and only if it fits or is one of the last twenty-four |
| DirList.LargestRead | p/srv/fcall.go:299-349 | A Tread of any open directory with the count 0xFFFFFFFF panics |
| DirList.Round | p/srv/file.go:443-463 | A reply carries at least one entry unless the next one does not fit a reply at all |
| DirList.FittingFits | p/srv/file.go:445-461 | What is packed fits, and it is nothing exactly if the first entry does not fit |
| DirList.UnpackAll | p/clnt/read.go:104-122 | The entries of a reply are unpacked one by one, none split |
| DirList.Readdir | p/clnt/read.go:90-126 | Never an error; returns the children in order up to the first that does not fit one read, so all of them if and only if each fits |
| DirList.EntryBack | p/p9.go:468-505 | Unpacking a packed entry at the front of any bytes gives its fields in the dialect and its length |
| DirList.EntryWas | p/p9.go:468-505 | UnpackDir takes no bytes but those of the entry it returns, and demands room for the least one |
| DirList.EntriesSound | p/p9.go:468-505 | So the listing holds for the real entry format of both dialects |
| Siblings.File.Find | p/srv/file.go:232-243 | The only child with that name, or null if there is none |
| Siblings.File.Add | p/srv/file.go:124-185 | Over all files of a tree: appends the file if the name is new and fails if it is not; every directory stays one sequence in both directions with names of their own, and no other directory changes |
| Siblings.File.Rename | p/srv/file.go:217-229 | Renames if and only if no file of the directory has the name; every directory stays in order |
| Siblings.File.Remove | p/srv/file.go:188-215 | Takes the file out of its directory and out of it alone, and every directory stays in order; a second Remove does nothing; a file that is not in its parent's list empties that list, and the directories stay in order if and only if it was empty |
| Siblings.File.UnlinkFrom | p/srv/file.go:200-213 | Unlinking leaves the others one sequence in both directions |
| Siblings.OneParent | p/srv/file.go:160 | No file is in two directories |
| Siblings.Tree.Do | p/srv/file.go:124-229 | One call changes names, parents, lists and removed bits of exactly the files it should, and adds the file to those that are in directories, or takes it from them |
| Siblings.StepShows | p/srv/file.go:124-229 | Such a call takes the files from what one abstract tree shows to what the tree with that operation done shows |
| Siblings.MadeIn | p/srv/file.go:124-185 | In the abstract tree: a new file is last in its directory if its name is new there, and in none otherwise, and nothing else changes |
| Siblings.NamedAnew | p/srv/file.go:217-229 | A rename changes one name, exactly if it is new in the directory |
| Siblings.TakenOutOf | p/srv/file.go:188-215 | A file taken out is in its directory no more, and the others keep their order |
| Siblings.Tree.Run | p/srv/file.go:124-243 | After any sequence of Add, Rename and Remove of linked files every directory of the tree is in order, and the files, their names, their directories and the linked ones are those of the abstract tree with the sequence done |
| RingLog.Logger.Log | p/log.go:59-65 | The ring then holds the last entries of the history with the new one last |
| RingLog.Logger.Filter | p/log.go:84-112 | Returns those of the last len(items) entries ever logged that have the owner, if one is given, and the type, if not 0: each of them, as often as it was logged, oldest first, and no other; all of them if neither is given |
| RingLog.Logger.Count | p/log.go:85-96 | The counting pass counts the places of the ring with that owner and type |
| RingLog.Logger.Gather | p/log.go:98-110 | The scan from the oldest entry collects the entries that match, in order, and stops |
| RingLog.PlaceShows | p/log.go:92-106 | An entry that matches is at its place and has the owner and the type asked for |
| RingLog.PlaceIsThere | p/log.go:92-106 | Every entry that has them matches |
| RingLog.RingNext | p/log.go:60-65 | Overwriting the oldest entry is logging one more |

## Left out

- NsWalk.Namespace.Walk: a first name of `..` is not modelled, because WalkDotDot depends on the mount table's parents, whose updates are left out; a later `..` is walked by the server like any name.
- NsWalk.Namespace.Walk: Cname and prev of the resulting fid, and that `append` may share the backing array of Path, are not modelled.
- Framing.Conn.Recv: Msize and the dialect do not change while the loop runs, so a Tversion in the stream is one message like any other.
- ChunkedIO.Writen: offsets are such that the end lies below 2^63, the largest length of a slice; Iounit is as Open leaves it.
- ChunkedIO.Readn: offsets are such that the end lies below 2^63.
- RamFile.RFile.Write: offset plus length lies below 2^63; beyond that the block array cannot be allocated.
- FileWalk.Clnt.FWalk: the replies fit a message (Msize of at least 217), names are shorter than 2^16, and the permission check of Fsrv.Walk, which tests a qid that is not set, is not modelled.
- FileWalk.Clnt.Clunk: that PackTclunk fails for an Msize below 11 is not modelled.
- DirList.Readdir: the directory does not change while it is read, and the limit on the number of entries is not modelled.
- Routing.Clnt.ReqAlloc: a caller that has to wait for a tag gets it when PutTag hands one on; that wait is not a step of the model.  Tversion, which is sent with NOTAG, and shutting the connection down are not modelled.
- Siblings.File.Add: the fields of the entry other than name and links are not modelled; a file is added once, and not again after it was removed.
- FileWalk.Clnt.Run: the root fid is not given back, and no fid is opened.
- Rpc.Session.Run: the connection does not break, and the server neither answers twice nor leaves the protocol; Routing.Clnt.Reply has those cases.
- LostFlush.FlushesMoveOn: a Tflush has a tag that no outstanding request has, and aims at an ordinary request.
- Packer.Fcall.PackTwalk: the decoded fields a printer also sets in its Fcall are not modelled, here and in the other printers; the slice that packCommon leaves in Pkt is.
- RingLog.Logger.Filter: Resize and the channels in front of the loop are not modelled.
- Engine.AnsweredAtMostOnce: Tversion, which answers for all outstanding requests, is not a kind of request here; nor are file servers that replace Process or PostProcess.
- FlushProtocol.InvRun: flushes of flushes and the order among several flushes of one victim are not kept by the code and are outside its condition, and flushes into a group of requests with one tag are in LostFlush instead; a flush that finds no victim is in the model, and may be answered before a reply already taken off the map.
- TagQueue.InvRun: nothing is promised across a drained tag, because the map entry is deleted before the reply is sent.
- FidRefs.CountsAreExact: no request is flushed, because process goes on after answering a flushed request; an attach with an afid that is not known answers twice and is not modelled.
- Engine and FidRefs are transition systems on values: pointers between requests are indices, and that Go frees or reuses memory plays no part.
- Sockets, TLS, goroutine start and stop, connection teardown.
- Updates to the mount table of p/chan9; the model takes the unions as given and finite.
- The open, create and wstat rules of p/srv/fcall.go and p/srv/file.go, permissions and users.
- The pipelining Tag of p/clnt/tag.go, p/clnt/mount.go, statistics over HTTP, p/fmt.go, ParseNetName, the other example servers and commands, and the near-duplicates in p/chan9 and tlsramfs.
