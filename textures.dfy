/** `TextureCache`: textures loaded from the sprites directory once and then
    handed out again by file name. */
module Textures {
  import opened Wrappers

  /** A texture on the GPU, shared by reference counting in the game. */
  type Texture(==)

  /** Why a texture file could not be loaded. */
  type LoadError(==)

  /** `SPRITES_PATH`. */
  const SpritesPath: string := "assets/images"

  /** The file a sprite name is loaded from: `"{SPRITES_PATH}/{filename}"`. */
  function SpritePath(filename: string): (p: string)
    ensures p == "assets/images/" + filename
  {
    SpritesPath + "/" + filename
  }

  class TextureCache {
    /** The textures loaded so far, by file name. */
    var cache: map<string, Texture>
    /** The paths the loader has been asked for, in order. */
    ghost var loads: seq<string>

    /** `TextureCache::default()`: nothing loaded. */
    constructor ()
      ensures cache == map[] && loads == []
    {
      cache := map[];
      loads := [];
    }

    /** `get`: the cached texture when there is one, without loading;
        otherwise the texture is loaded from the sprites directory, and
        cached only when loading succeeded. `load` stands for
        `Texture::from_file` with the device and queue it is given. */
    method Get(load: string -> Result<Texture, LoadError>, filename: string) returns (r: Result<Texture, LoadError>)
      modifies this
      ensures filename in old(cache) ==> r == Success(old(cache)[filename]) && cache == old(cache) && loads == old(loads)
      ensures filename !in old(cache) ==> r == load(SpritePath(filename)) && loads == old(loads) + [SpritePath(filename)]
      ensures filename !in old(cache) ==> cache == if r.Success? then old(cache)[filename := r.value] else old(cache)
      ensures r.Success? ==> filename in cache && cache[filename] == r.value
      ensures r.Failure? ==> cache == old(cache)
      ensures cache.Keys == old(cache).Keys + (if r.Success? then {filename} else {})
      ensures forall f :: f in old(cache) ==> f in cache && cache[f] == old(cache)[f]
    {
      if filename in cache {
        r := Success(cache[filename]);
      } else {
        loads := loads + [SpritePath(filename)];
        r := load(SpritePath(filename));
        if r.Success? {
          cache := cache[filename := r.value];
        }
      }
    }
  }
}
