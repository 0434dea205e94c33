/** The Direct3D 11 objects the core touches, reduced to what matters for
    resource accounting: reference counts on the device and its immediate
    context, allocation of native texture and view handles, and a ghost
    ledger recording every handle that has been released. */
module Direct3D {

  /** An opaque native object (a COM interface pointer in the C# code). */
  type Handle = nat

  /** DXGI_FORMAT codes (the numeric values of the DXGI enumeration). */
  type DxgiFormat = int

  const R8G8B8A8Unorm: DxgiFormat := 28
  const R8G8B8A8UnormSrgb: DxgiFormat := 29
  const B8G8R8A8Unorm: DxgiFormat := 87
  const B8G8R8A8UnormSrgb: DxgiFormat := 91

  /** D3D11_USAGE_DEFAULT. */
  const UsageDefault: nat := 0
  /** D3D11_BIND_SHADER_RESOURCE and D3D11_BIND_RENDER_TARGET. */
  const BindShaderResource: bv32 := 0x8
  const BindRenderTarget: bv32 := 0x20
  /** D3D11_RESOURCE_MISC_SHARED: the texture can be opened on another device. */
  const MiscShared: bv32 := 0x2

  /** D3D11_TEXTURE2D_DESC. */
  datatype TextureDesc = TextureDesc(
    width: nat,
    height: nat,
    mipLevels: nat,
    arraySize: nat,
    format: DxgiFormat,
    sampleCount: nat,
    usage: nat,
    bindFlags: bv32,
    cpuAccessFlags: bv32,
    miscFlags: bv32)

  /** An ID3D11Device. Every handle it creates is numbered below
      `nextHandle`, so a newly created handle is distinct from all earlier
      ones. `owner` records which object holds each handle and `released`
      counts how often each handle has been released. */
  class Device {
    var refCount: int
    var nextHandle: Handle
    ghost var released: multiset<Handle>
    ghost var owner: map<Handle, object>

    ghost predicate Valid()
      reads this
    {
      (forall h | h in released :: h < nextHandle) &&
      (forall h | h in owner :: h < nextHandle)
    }

    /** Handle `h` belongs to `o` and has not been released yet. */
    ghost predicate HeldBy(h: Handle, o: object)
      reads this
    {
      h in owner && owner[h] == o && released[h] == 0
    }

    /** Every handle recorded in `owner0` still has the same owner. */
    ghost predicate Extends(owner0: map<Handle, object>)
      reads this
    {
      forall h | h in owner0 :: h in owner && owner[h] == owner0[h]
    }

    /** D3D11CreateDevice: the creator holds the one reference. */
    constructor ()
      ensures Valid()
      ensures refCount == 1 && nextHandle == 0
      ensures released == multiset{} && owner == map[]
    {
      refCount := 1;
      nextHandle := 0;
      released := multiset{};
      owner := map[];
    }

    method AddRef()
      modifies this`refCount
      ensures refCount == old(refCount) + 1
    {
      refCount := refCount + 1;
    }

    method Release()
      modifies this`refCount
      ensures refCount == old(refCount) - 1
    {
      refCount := refCount - 1;
    }

    /** CreateTexture2D: a new native texture (the description only shapes
        GPU memory, which is not modelled). */
    method CreateTexture2D(desc: TextureDesc) returns (texture: Handle)
      requires Valid()
      modifies this`nextHandle
      ensures Valid()
      ensures texture == old(nextHandle) && nextHandle == texture + 1
    {
      texture := nextHandle;
      nextHandle := nextHandle + 1;
    }

    /** CreateRenderTargetView: a new view object over `resource`. */
    method CreateRenderTargetView(resource: Handle, format: DxgiFormat) returns (view: Handle)
      requires Valid()
      modifies this`nextHandle
      ensures Valid()
      ensures view == old(nextHandle) && nextHandle == view + 1
    {
      view := nextHandle;
      nextHandle := nextHandle + 1;
    }

    /** IUnknown::Release on a handle this device created. */
    method ReleaseHandle(h: Handle)
      requires h in owner
      modifies this`released
      ensures released == old(released) + multiset{h}
    {
      released := released + multiset{h};
    }

    /** Releasing handles this device created keeps it valid. */
    lemma ReleasingOwnedKeepsValid(before: multiset<Handle>, more: multiset<Handle>)
      requires (forall h | h in before :: h < nextHandle) && (forall h | h in owner :: h < nextHandle)
      requires released == before + more && forall h | h in more :: h in owner
      ensures Valid()
    {
    }
  }

  /** An ID3D11DeviceContext; only its reference count is modelled
      (Flush and OMSetRenderTargets have no effect on the modelled state). */
  class DeviceContext {
    var refCount: int

    constructor ()
      ensures refCount == 1
    {
      refCount := 1;
    }

    method AddRef()
      modifies this`refCount
      ensures refCount == old(refCount) + 1
    {
      refCount := refCount + 1;
    }

    method Release()
      modifies this`refCount
      ensures refCount == old(refCount) - 1
    {
      refCount := refCount - 1;
    }
  }
}
