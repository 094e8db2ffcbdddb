/**
 * The Unity objects the ray-tracing driver holds references to, reduced to
 * the state the driver reads or changes. GPU memory is not modelled: a
 * buffer or texture is a handle with a size and a released flag.
 */
module Engine {
  /** A scene transform, reduced to its edge-triggered `hasChanged` flag. */
  class Transform {
    var hasChanged: bool

    constructor (hasChanged: bool)
      ensures this.hasChanged == hasChanged
    {
      this.hasChanged := hasChanged;
    }
  }

  /** A GPU-side structured buffer of `count` elements. */
  class ComputeBuffer<T> {
    var count: nat
    var data: seq<T>
    var released: bool

    constructor (count: nat)
      ensures this.count == count && data == [] && !released
    {
      this.count := count;
      data := [];
      released := false;
    }

    method SetData(d: seq<T>)
      modifies this`data
      ensures data == d
    {
      data := d;
    }

    /** Frees the GPU memory; the handle itself stays valid as a reference. */
    method Release()
      modifies this`released
      ensures released
    {
      released := true;
    }
  }

  /** An off-screen render target of a fixed size. */
  class RenderTexture {
    var width: int
    var height: int
    var released: bool

    constructor (width: int, height: int)
      ensures this.width == width && this.height == height && !released
    {
      this.width := width;
      this.height := height;
      released := false;
    }

    method Release()
      modifies this`released
      ensures released
    {
      released := true;
    }
  }
}
