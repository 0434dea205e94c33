/** TexturePool and PooledTexture: a LIFO free-list of render-target
    textures that all share one fixed description, bound to one device. */
module Pooling {
  import opened Direct3D
  import opened PoolPolicy

  /** The multiset of native handles (view and texture) held by `s`. */
  function Handles(s: seq<PooledTexture>): (m: multiset<Handle>)
    ensures |m| == 2 * |s|
  {
    if s == [] then multiset{} else multiset{s[0].rtv, s[0].texture} + Handles(s[1..])
  }

  /** No handle occurs twice among the textures of `s`. */
  predicate DistinctHandles(s: seq<PooledTexture>)
  {
    (forall i | 0 <= i < |s| :: s[i].texture != s[i].rtv) &&
    (forall i, j | 0 <= i < j < |s| :: {s[i].texture, s[i].rtv} !! {s[j].texture, s[j].rtv})
  }

  lemma HandlesCons(s: seq<PooledTexture>, i: nat)
    requires i < |s|
    ensures Handles(s[i..]) == multiset{s[i].rtv, s[i].texture} + Handles(s[i + 1..])
  {
    assert s[i..][1..] == s[i + 1..];
  }

  /** Every handle in Handles(s) is a handle of some texture of `s`. */
  lemma {:induction false} HandlesWithin(s: seq<PooledTexture>, keys: set<Handle>)
    requires forall k | 0 <= k < |s| :: s[k].texture in keys && s[k].rtv in keys
    ensures forall h | h in Handles(s) :: h in keys
  {
    if s != [] {
      HandlesWithin(s[1..], keys);
    }
  }

  /** A handle held by none of the textures of `s` does not occur in Handles(s). */
  lemma {:induction false} HandlesAbsent(s: seq<PooledTexture>, h: Handle)
    requires forall i | 0 <= i < |s| :: h != s[i].texture && h != s[i].rtv
    ensures Handles(s)[h] == 0
  {
    if s != [] {
      HandlesAbsent(s[1..], h);
    }
  }

  /** When no handle occurs twice, each handle of each texture of `s`
      occurs exactly once in Handles(s): releasing all of Handles(s)
      releases every handle of `s` exactly once. */
  lemma {:induction false} HandlesCountedOnce(s: seq<PooledTexture>, k: nat)
    requires DistinctHandles(s) && k < |s|
    ensures Handles(s)[s[k].texture] == 1 && Handles(s)[s[k].rtv] == 1
  {
    var rest := s[1..];
    if k == 0 {
      HandlesAbsent(rest, s[0].texture);
      HandlesAbsent(rest, s[0].rtv);
    } else {
      assert forall i, j | 0 <= i < j < |rest| :: rest[i] == s[i + 1] && rest[j] == s[j + 1];
      HandlesCountedOnce(rest, k - 1);
      assert rest[k - 1] == s[k];
    }
  }

  /** Over a pool's whole life the device's reference count comes back to
      where it was: the constructor takes one reference and only the first
      Dispose gives it back, whatever is rented and returned in between. */
  method PoolLifetime(device: Device, description: TextureDesc)
    requires device.Valid()
    modifies device
    ensures device.refCount == old(device.refCount)
  {
    var pool := new TexturePool(device, description);
    var t := pool.Rent();
    pool.Return(t);
    pool.Dispose();
    pool.Dispose();
  }

  /** One render-target texture and its view, owned by one pool. All
      three fields are fixed at creation. */
  class PooledTexture {
    const pool: TexturePool
    const texture: Handle
    const rtv: Handle

    constructor (pool: TexturePool, texture: Handle, rtv: Handle)
      ensures this.pool == pool && this.texture == texture && this.rtv == rtv
    {
      this.pool := pool;
      this.texture := texture;
      this.rtv := rtv;
    }

    /** The description of the texture is its pool's. */
    function Description(): TextureDesc
    {
      pool.description
    }

    /** Both native objects belong to this texture and neither has been
        released. */
    ghost predicate Held()
      reads pool.device
    {
      texture != rtv && pool.device.HeldBy(texture, this) && pool.device.HeldBy(rtv, this)
    }

    /** Recycle is Return to the owning pool; no other pool is touched. */
    method Recycle()
      requires pool.Valid() && pool.Outstanding(this)
      modifies pool`free, pool.device`released
      ensures pool.Valid() && pool.ReturnEffect(this)
    {
      pool.Return(this);
    }

    /** Releases the view and then the texture, once each. */
    method Dispose()
      requires Held()
      modifies pool.device`released
      ensures pool.device.released == old(pool.device.released) + multiset{rtv, texture}
      ensures forall u: PooledTexture | u != this && old(allocated(u)) && old(u.Held()) :: u.Held()
    {
      pool.device.ReleaseHandle(rtv);
      pool.device.ReleaseHandle(texture);
    }
  }

  class TexturePool {
    /** The Stack<PooledTexture>; its top is the last element. */
    var free: seq<PooledTexture>
    const device: Device
    const description: TextureDesc
    var isDisposed: bool

    /** The object invariant: at most MaxFree entries, all distinct, all
        owned by this pool and still holding unreleased handles; a disposed
        pool keeps nothing. */
    ghost predicate Valid()
      reads this, device
    {
      device.Valid() &&
      |free| <= MaxFree &&
      (isDisposed ==> free == []) &&
      FreeListHeld()
    }

    /** The free-list holds distinct textures of this pool whose handles
        are all still unreleased. */
    ghost predicate FreeListHeld()
      reads this, device
    {
      (forall i | 0 <= i < |free| :: free[i].pool == this && free[i].Held()) &&
      (forall i, j | 0 <= i < j < |free| :: free[i] != free[j])
    }

    function View(): PoolView<PooledTexture>
      reads this
    {
      PoolView(free, isDisposed)
    }

    /** `t` was rented from this pool and has been neither returned nor
        released since: the only state in which Return may be called. */
    ghost predicate Outstanding(t: PooledTexture)
      reads this, device
    {
      t.pool == this && t.Held() && t !in free
    }

    /** What Return(t) does: the free-list follows Step, and exactly when
        the texture is not kept, its two handles are released. */
    twostate predicate ReturnEffect(t: PooledTexture)
      reads this, device
    {
      View() == Step(old(View()), Returned(t)) &&
      device.owner == old(device.owner) &&
      device.nextHandle == old(device.nextHandle) &&
      device.refCount == old(device.refCount) &&
      if KeepsReturn(old(|free|), old(isDisposed))
      then free == old(free) + [t] && device.released == old(device.released)
      else free == old(free) && device.released == old(device.released) + multiset{t.rtv, t.texture}
    }

    /** The pool takes one reference on the device for its lifetime. */
    constructor (device: Device, description: TextureDesc)
      requires device.Valid()
      modifies device`refCount
      ensures Valid()
      ensures this.device == device && this.description == description
      ensures free == [] && !isDisposed
      ensures device.refCount == old(device.refCount) + 1
      ensures forall u: PooledTexture | old(allocated(u)) && old(u.Held()) :: u.Held()
    {
      this.device := device;
      this.description := description;
      free := [];
      isDisposed := false;
      new;
      device.AddRef();
    }

    /** Pops the most recently returned texture, or creates a new one when
        the free-list is empty. The disposed flag is not consulted. */
    method Rent() returns (t: PooledTexture)
      requires Valid()
      modifies this`free, device`nextHandle, device`owner
      ensures Valid() && Outstanding(t)
      ensures t.Description() == description
      ensures View() == Step(old(View()), Rented)
      ensures device.released == old(device.released) && device.Extends(old(device.owner))
      ensures old(free) != [] ==> t == old(free[|free| - 1]) && unchanged(device)
      ensures old(free) == [] ==> fresh(t) && device.nextHandle == old(device.nextHandle) + 2
      ensures forall u: PooledTexture | old(allocated(u)) && old(u.Held()) :: u.Held()
    {
      if |free| > 0 {
        t := free[|free| - 1];
        free := free[..|free| - 1];
        return;
      }
      var texture := device.CreateTexture2D(description);
      var view := device.CreateRenderTargetView(texture, description.format);
      assert device.released[texture] == 0 && device.released[view] == 0;
      t := new PooledTexture(this, texture, view);
      device.owner := device.owner[texture := t][view := t];
      assert t.Held();
    }

    /** Pushes `t` back, or releases it when the pool is disposed or the
        free-list already holds more than HighWater entries. */
    method Return(t: PooledTexture)
      requires Valid() && Outstanding(t)
      modifies this`free, device`released
      ensures Valid() && ReturnEffect(t)
      ensures forall u: PooledTexture | u != t && old(allocated(u)) && old(u.Held()) :: u.Held()
    {
      if isDisposed || |free| > HighWater {
        t.Dispose();
      } else {
        free := free + [t];
      }
    }

    /** Releases every texture of the free-list, top first, and empties it. */
    method Recycle()
      requires device.Valid() && FreeListHeld()
      modifies this`free, device`released
      ensures device.Valid() && free == []
      ensures device.released == old(device.released) + Handles(old(free))
      ensures forall u: PooledTexture | u !in old(free) && old(allocated(u)) && old(u.Held()) :: u.Held()
    {
      var s := free;
      ghost var d := device;
      assert forall k | 0 <= k < |s| :: s[k].pool == this && s[k].texture in d.owner && s[k].rtv in d.owner;
      DisposeEach(s);
      HandlesWithin(s, device.owner.Keys);
      device.ReleasingOwnedKeepsValid(old(device.released), Handles(s));
      free := [];
    }

    /** The `foreach` of Recycle: disposes each entry of `s`, top first. */
    method DisposeEach(s: seq<PooledTexture>)
      requires forall k | 0 <= k < |s| :: s[k].pool == this && s[k].Held()
      requires forall j, k | 0 <= j < k < |s| :: s[j] != s[k]
      modifies device`released
      ensures device.released == old(device.released) + Handles(s)
      ensures forall u: PooledTexture | u !in s && old(allocated(u)) && old(u.Held()) :: u.Held()
    {
      var i := |s|;
      while i > 0
        invariant 0 <= i <= |s|
        invariant device.released == old(device.released) + Handles(s[i..])
        invariant forall k | 0 <= k < i :: s[k].Held()
        invariant forall u: PooledTexture | u !in s && old(allocated(u)) && old(u.Held()) :: u.Held()
      {
        i := i - 1;
        var t := s[i];
        t.Dispose();
        forall k | 0 <= k < i
          ensures s[k].Held()
        {
          assert s[k] != t;
        }
        HandlesCons(s, i);
      }
    }

    /** The handles of the free-list are pairwise distinct. */
    lemma FreeHandlesDistinct()
      requires Valid()
      ensures DistinctHandles(free)
    {
    }

    /** The first call marks the pool disposed, releases every free texture
        exactly once and gives back the device reference; later calls do
        nothing. */
    method Dispose()
      requires Valid()
      modifies this`free, this`isDisposed, device`released, device`refCount
      ensures Valid() && isDisposed && free == []
      ensures View() == Step(old(View()), Disposed)
      ensures old(isDisposed) ==> unchanged(device)
      ensures !old(isDisposed) ==>
        device.released == old(device.released) + Handles(old(free)) &&
        device.refCount == old(device.refCount) - 1
      ensures !old(isDisposed) ==>
        forall t | t in old(free) :: device.released[t.texture] == 1 && device.released[t.rtv] == 1
      ensures forall u: PooledTexture | u !in old(free) && old(allocated(u)) && old(u.Held()) :: u.Held()
    {
      if !isDisposed {
        FreeHandlesDistinct();
        ghost var before := free;
        isDisposed := true;
        Recycle();
        device.Release();
        forall t | t in before
          ensures device.released[t.texture] == 1 && device.released[t.rtv] == 1
        {
          var k :| 0 <= k < |before| && before[k] == t;
          HandlesCountedOnce(before, k);
        }
      }
    }
  }
}
