# VL.Devices.Axis video input, modelled in Dafny

This project models the core of the VL.Devices.Axis video input node. The
node decodes a network or file stream with libvlc into Direct3D 11
textures and hands them to the vvvv renderer. The model covers three parts.

- **Texture pool** (`pooling.dfy`, `pool_policy.dfy`, `direct3d.dfy`).
  `TexturePool` keeps a LIFO free-list of `PooledTexture`s that all share
  one description. Each texture holds a native texture and its
  render-target view.
  - The free-list is a `seq` field of the pool class.
  - Native objects are numbered handles allocated by the `Device` class.
  - A ghost multiset records every release of a handle, so "released
    exactly once" and "never both pooled and released" can be stated.
  - A ghost owner map makes the handles of different textures provably
    distinct.
  - Every pool method is specified against the pure policy
    `PoolPolicy.Step`. Lemmas about sequences of `Step`s state what any
    sequence of Rent/Return/Dispose calls does to the free-list.
- **Playback session** (`acquisition.dfy`, `video_formats.dfy`). This is the
  nested `Acquisition` class, whose decoder callbacks move a texture along
  pool → pending slot → bounded frame queue (capacity 2) or back to its
  pool. It also covers the consumer's pop of that queue, the
  pixel-format mapping and the output negotiation. The class invariant
  `Acquisition.Valid` says:
  - every pool except the current one is retired (disposed and empty);
  - every queued, pending or handed-out texture can still be returned to
    its own pool;
  - no texture is in two places. A ghost set `handedOut` records the
    textures GrabVideoFrame has given to the consumer and not yet released.
- **VideoIn controller** (`video_in.dfy`). This is the state machine over
  the requested url, the enabled flag, the change ticket, the disposed flag
  and the current session. The ticket is a C# `int` that wraps around.

The decoder invokes the callbacks one at a time. The locks and
`Interlocked.Exchange` therefore become plain assignments.

Where the documented intent of the repository and its code differ, the
model follows the code:
- `Acquisition.Dispose` only closes the frame queue. It does not dispose
  the texture pool.
- A `Swap` after `Dispose` makes `TryAdd` throw, and the pending texture is
  lost (see Findings).
- `UpdateOuput` does not drain the frame queue. Textures of a replaced pool
  can still be grabbed. Recycling them then releases them, because their
  pool is disposed.

## Model

| member | source | states |
|---|---|---|
| PoolPolicy.Step | src/PooledTexture.cs:45-107 | one call's effect on the free-list and the disposed flag: only Return can grow the list, by one and to at most 17; Rent on a non-empty list removes exactly its top; only Dispose sets the flag |
| PoolPolicy.RunStaysBounded | src/PooledTexture.cs:78-84 | whatever sequence of Rent/Return/Dispose is applied, the free-list never holds more than 17 entries (the strict `> 16` check lets it reach 17) |
| PoolPolicy.DisposedStaysEmpty | src/PooledTexture.cs:78-81 | once disposed and emptied, no sequence of calls changes the pool: Return always releases and never pushes |
| PoolPolicy.ReturnThenRent | src/PooledTexture.cs:45-87 | LIFO: a kept Return followed by Rent gives back the same texture and restores the free-list |
| PoolPolicy.DisposeIdempotent | src/PooledTexture.cs:99-107 | a second Dispose changes nothing |
| PoolPolicy.RentIgnoresDisposed | src/PooledTexture.cs:45-72 | Rent pops the same way whether or not the pool is disposed |
| Pooling.HandlesCountedOnce | src/PooledTexture.cs:88-97 | when the free-list's handles are distinct, releasing all of them releases each texture's view and texture exactly once |
| Pooling.PoolLifetime | src/PooledTexture.cs:36-107 | one example trace, not a property of all call orders: a pool that is created, rented from once, returned to once and disposed twice leaves the device reference count where it was |
| Pooling.PooledTexture.constructor | src/PooledTexture.cs:65-70 | a texture records its pool and its two native handles |
| Pooling.PooledTexture.Recycle | src/PooledTexture.cs:16-19 | Recycle has exactly the effect of Return on the owning pool (and needs the same precondition) |
| Pooling.PooledTexture.Dispose | src/PooledTexture.cs:21-25 | releases the view and the texture, one release each, and leaves every other texture's handles unreleased |
| Pooling.TexturePool.constructor | src/PooledTexture.cs:36-41 | a new pool is empty, live, has the given device and description and takes one device reference |
| Pooling.TexturePool.Rent | src/PooledTexture.cs:45-72 | follows Step(Rented): pops the top texture without allocating, or allocates a fresh texture of this pool on two new handles; the result has the pool's description and is outstanding; no handle is released |
| Pooling.TexturePool.Return | src/PooledTexture.cs:74-87 | follows Step(Returned): pushes when live and holding at most 16, otherwise releases exactly the texture's two handles and keeps the free-list; the invariant is kept |
| Pooling.TexturePool.Recycle | src/PooledTexture.cs:88-97 | empties the free-list after releasing exactly the handles of its entries |
| Pooling.TexturePool.DisposeEach | src/PooledTexture.cs:92-93 | the loop over the free-list releases exactly the handles of the given textures, and no texture outside it loses a handle |
| Pooling.TexturePool.Dispose | src/PooledTexture.cs:99-107 | follows Step(Disposed): the first call empties the free-list, releases each entry's handles exactly once and gives back one device reference; later calls change nothing |
| VideoFormats.ToPixelFormat | src/VideoIn.cs:221-234 | converts exactly the four 8-bit RGBA formats: the two BGRA variants to B8G8R8A8 and the two RGBA variants to R8G8B8A8; any other format is NotImplemented |
| VideoFormats.PoolFormat | src/VideoIn.cs:274-284 | the pool format is BGRA, and it is the sRGB variant exactly when the consumer renders in linear colour space |
| VideoFormats.PoolDescription | src/VideoIn.cs:276-288 | the pool description has the decoder's size and the pool format, is shareable, and is bound as render target and shader resource |
| VideoFormats.NegotiatedOutput | src/VideoIn.cs:291-296 | the decoder is always told BGRA UNORM, full range, BT.709 colour space and primaries, top-left orientation, with a LINEAR transfer function exactly in linear colour space and SRGB otherwise |
| VideoFormats.ReportedLayoutMatchesPool | src/VideoIn.cs:270-299 | the reported format and the pool's format have the same pixel layout |
| VideoFormats.SelectPlane | src/VideoIn.cs:329-335 | only plane 0 is accepted |
| Acquisitions.Acquisition.constructor | src/VideoIn.cs:149-183 | a new session has an open, empty queue, no pool and no pending texture |
| Acquisitions.Acquisition.Dispose | src/VideoIn.cs:187-192 | closes the queue; nothing else changes |
| Acquisitions.Acquisition.GrabVideoFrame | src/VideoIn.cs:194-219 | no frame exactly when the queue is empty; otherwise removes the oldest texture and returns a frame with its size and a BGRA layout (the conversion cannot throw), together with the texture, which joins the handed-out set and can still be recycled |
| Acquisitions.Acquisition.ReleaseFrame | src/VideoIn.cs:219 | the consumer's release of a grabbed frame: the texture leaves the handed-out set and gets exactly Return's effect on its own pool; no other pool changes and the session invariant holds |
| Acquisitions.Acquisition.ReturnToPool | src/VideoIn.cs:219 | Recycle of a texture that is no longer queued, pending or handed out: Return's effect on its own pool, current or retired, other pools unchanged, invariant kept |
| Acquisitions.Acquisition.ReturnToCurrentPool | src/VideoIn.cs:219 | ReturnToPool for a texture of the current pool |
| Acquisitions.Acquisition.ReturnToRetiredPool | src/VideoIn.cs:219 | ReturnToPool for a texture of a retired pool, which releases it |
| Acquisitions.Acquisition.OutputSetup | src/VideoIn.cs:237-242 | hands out the device context, takes one reference on it and reports success |
| Acquisitions.Acquisition.OutputCleanup | src/VideoIn.cs:244-251 | disposes and forgets the current pool, with Dispose's releases, and gives back one context reference |
| Acquisitions.Acquisition.RetirePool | src/VideoIn.cs:247-248 | the optional dispose of the current pool: it is disposed and emptied and forgotten, and the session invariant holds |
| Acquisitions.Acquisition.UpdateOuput | src/VideoIn.cs:270-299 | disposes any previous pool; installs a fresh, empty pool with PoolDescription of the decoder's size; reports NegotiatedOutput; returns true |
| Acquisitions.Acquisition.Swap | src/VideoIn.cs:301-311 | empties the pending slot; an empty slot does nothing else; otherwise the texture is queued if the queue has room, returned to its own pool if the queue is full, and lost (still holding its handles) if the queue is closed |
| Acquisitions.Acquisition.EnqueuePending | src/VideoIn.cs:309 | a successful `TryAdd`: the pending texture joins the back of the open queue and the slot is emptied |
| Acquisitions.Acquisition.RecyclePending | src/VideoIn.cs:309-310 | Swap's full-queue branch is Return on the pending texture's own pool, which may be a retired pool |
| Acquisitions.Acquisition.SwapRecyclingWhenClosed | src/VideoIn.cs:301-311 | the corrected Swap: every pending texture is either queued or returned to its pool |
| Acquisitions.Acquisition.RentPending | src/VideoIn.cs:316 | the rent into the pending slot follows Step(Rented) on the current pool and gives a texture of that pool with its description |
| Acquisitions.Acquisition.RentFromCurrentPool | src/VideoIn.cs:316 | the rent with the slot empty: the texture is outstanding in the current pool (popped LIFO per Step or freshly allocated), is in no queue and not handed out, and the session invariant holds |
| Acquisitions.PendingLostAfterDispose | src/VideoIn.cs:187-192 | rendering, then Dispose, then Swap leaves a texture with live handles that no slot, queue or pool holds |
| Acquisitions.Acquisition.StartRendering | src/VideoIn.cs:313-326 | on enter with a pool, rents (LIFO, per Step) into the pending slot and succeeds; on enter without a pool, empties the slot and fails; on leave, changes nothing and succeeds |
| VideoSource.Inc32 | src/VideoIn.cs:60 | the ticket increment is the successor modulo 2^32 within int range, so it always changes the ticket |
| VideoSource.VideoIn.constructor | src/VideoIn.cs:33-48 | the node holds one reference on a fresh device and context; there is no url, no session and ticket 0 |
| VideoSource.VideoIn.Update | src/VideoIn.cs:50-64 | null and no change when disposed; otherwise stores the request and returns the node; a changed url or flag drops the session and increments the ticket; an unchanged request changes nothing |
| VideoSource.VideoIn.Start | src/VideoIn.cs:117-123 | null exactly when there is no url, the node is disposed or disabled; otherwise a fresh session for the current url on the node's device becomes the current one |
| VideoSource.VideoIn.Dispose | src/VideoIn.cs:125-134 | idempotent; the first call sets the flag, increments the ticket and releases the context and the device once each |
| VideoSource.VideoIn.IsPlaying | src/VideoIn.cs:66 | false without a session, else the player's flag |
| VideoSource.VideoIn.State | src/VideoIn.cs:71 | Stopped without a session, else the player's state |
| VideoSource.VideoIn.Time | src/VideoIn.cs:76-85 | zero without a session, else the player's milliseconds in seconds |
| VideoSource.VideoIn.Position | src/VideoIn.cs:90-99 | zero without a session, else the player's position |
| VideoSource.VideoIn.Length | src/VideoIn.cs:104-113 | zero without a session, else the player's length in seconds |

## Left out

- All Direct3D 11 and DXGI calls are abstract operations on numbered
  handles. These are device creation, texture and view creation,
  `Flush`, `OMSetRenderTargets` and the reference counts inside the
  driver. Creation failures (`ThrowOnFailure`) are not modelled.
- The shared-handle bridge in GrabVideoFrame, which opens the texture on
  the consumer's device, is not modelled. The frame records the handle of
  the decode texture it aliases. A consumer device that is not Direct3D 11
  (a null `vvvvDevice`) is not modelled.
- GrabVideoFrame's release callback is `PooledTexture.Recycle`, modelled
  above. The resource-provider wrapper around it is not modelled.
- libvlc is left out: the instance, the media (including the choice
  between an absolute URI and a file path), the media player, `Play`,
  logging and their disposal. The player's status is a field the model
  only reads.
- Concurrency is left out: the locks, `Interlocked.Exchange`, and
  BlockingCollection's blocking and thread-safety. A `TryTake` that times
  out is the empty-queue case.
- The float conversions in Time, Position and Length are exact real
  arithmetic here.
- VideoSource.VideoIn.Time: does not model the rounding to `float`. The
  same holds for Length.
- `OutputSetResize` is left out because its body is commented out.
- src/MyMediaPlayer.cs, src/Utils.cs and src/ImageResolutionEnum.cs are
  not part of this model. They are native-library and host-framework
  plumbing.
- `VideoSource.VideoIn.ChangedTicket` and `Pooling.PooledTexture.Description`
  are modelled as plain reads of a field, without a contract.

## Findings

| source | as written | input that shows it | evidently intended | confidence | as-written member | corrected member |
|---|---|---|---|---|---|---|
| src/VideoIn.cs:301-311 | `Swap` calls `TryAdd` on the frame queue without checking whether `Dispose` has closed it. `TryAdd` then throws, so the pending texture is neither queued nor recycled and its native objects are never released. | a session that has a pending texture from `StartRendering(true)`, then `Dispose`, then the decoder's `Swap` (the sequence Acquisitions.PendingLostAfterDispose runs) | a texture that cannot be queued goes back to its pool, like one that does not fit | low (not executed; it needs a decoder callback between `CompleteAdding` and the player's disposal) | Acquisitions.Acquisition.Swap | Acquisitions.Acquisition.SwapRecyclingWhenClosed |
