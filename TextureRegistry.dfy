/**
 * The texture registry (src/TextureManager.cpp): simple textures by name and
 * PBR material sets by name and map type, filled from an image loader and
 * bound to consecutive texture units.
 *
 * The image loader (stb_image decoding plus GL texture creation) is a
 * parameter `load: path -> id`, where id 0 means the load failed.  GL binds
 * (`glActiveTexture(GL_TEXTURE0 + unit)` followed by `glBindTexture`) are
 * returned as a trace of `Bind(unit, id)` records.
 */
module TextureRegistry {

  /** One texture-unit bind: `glActiveTexture(GL_TEXTURE0 + unit); glBindTexture(id)`. */
  datatype Bind = Bind(unit: int, id: nat)

  /** The image loader: returns a texture id, 0 on failure. */
  type Loader = string -> nat

  /** A PBR texture set: map type ("albedo", ...) to texture id. */
  type TextureSet = map<string, nat>

  /** The five map types every known material table lists, in table order. */
  const PbrTypes: seq<string> := ["albedo", "normal", "roughness", "ao", "displacement"]

  /** The map types `bindPBRTextures` binds, in bind order (displacement is never bound). */
  const BindOrder: seq<string> := ["albedo", "normal", "roughness", "ao"]

  /** The material names that have a file table. */
  predicate KnownMaterial(name: string) {
    name == "grass" || name == "rock" || name == "snow" || name == "sand"
  }

  /** The fixed (type, filename) table of `loadPBRTextureSet`; empty for any other name. */
  function TextureTypes(name: string): (r: seq<(string, string)>)
    ensures |r| == if KnownMaterial(name) then 5 else 0
    ensures forall j :: 0 <= j < |r| ==> r[j].0 == PbrTypes[j]
  {
    if name == "grass" then
      [("albedo", "Grass001_2K-JPG_Color.jpg"),
       ("normal", "Grass001_2K-JPG_NormalGL.jpg"),
       ("roughness", "Grass001_2K-JPG_Roughness.jpg"),
       ("ao", "Grass001_2K-JPG_AmbientOcclusion.jpg"),
       ("displacement", "Grass001_2K-JPG_Displacement.jpg")]
    else if name == "rock" then
      [("albedo", "Rock020_2K-JPG_Color.jpg"),
       ("normal", "Rock020_2K-JPG_NormalGL.jpg"),
       ("roughness", "Rock020_2K-JPG_Roughness.jpg"),
       ("ao", "Rock020_2K-JPG_AmbientOcclusion.jpg"),
       ("displacement", "Rock020_2K-JPG_Displacement.jpg")]
    else if name == "snow" then
      [("albedo", "Snow004_2K-JPG_Color.jpg"),
       ("normal", "Snow004_2K-JPG_NormalGL.jpg"),
       ("roughness", "Snow004_2K-JPG_Roughness.jpg"),
       ("ao", "Snow004_2K-JPG_AmbientOcclusion.jpg"),
       ("displacement", "Snow004_2K-JPG_Displacement.jpg")]
    else if name == "sand" then
      [("albedo", "Ground093C_2K-JPG_Color.jpg"),
       ("normal", "Ground093C_2K-JPG_NormalGL.jpg"),
       ("roughness", "Ground093C_2K-JPG_Roughness.jpg"),
       ("ao", "Ground093C_2K-JPG_AmbientOcclusion.jpg"),
       ("displacement", "Ground093C_2K-JPG_Displacement.jpg")]
    else
      []
  }

  /** The path the loader is asked for: `basePath + "/" + filename`. */
  function FullPath(basePath: string, filename: string): string {
    basePath + "/" + filename
  }

  /** The paths `loadPBRTextureSet` hands to the loader, in table order. */
  function AttemptedPaths(types: seq<(string, string)>, basePath: string): seq<string> {
    seq(|types|, j requires 0 <= j < |types| => FullPath(basePath, types[j].1))
  }

  /**
   * The `textureSet` built by the loading loop over `types`: each entry whose
   * load returns non-zero stores type -> id, a later entry overwriting an earlier one.
   */
  function LoadedSet(types: seq<(string, string)>, basePath: string, load: Loader): TextureSet
    decreases |types|
  {
    if types == [] then map[]
    else
      var prev := LoadedSet(types[..|types| - 1], basePath, load);
      var last := types[|types| - 1];
      var id := load(FullPath(basePath, last.1));
      if id != 0 then prev[last.0 := id] else prev
  }

  /** No map type appears twice in a table. */
  predicate DistinctTypes(types: seq<(string, string)>) {
    forall i, j :: 0 <= i < j < |types| ==> types[i].0 != types[j].0
  }

  /**
   * For a table without repeated types, the loaded set holds exactly the
   * types whose load succeeded, each with the id its load returned.
   */
  lemma {:induction false} LoadedSetExact(types: seq<(string, string)>, basePath: string, load: Loader)
    requires DistinctTypes(types)
    ensures forall j :: 0 <= j < |types| ==>
      (types[j].0 in LoadedSet(types, basePath, load) <==> load(FullPath(basePath, types[j].1)) != 0)
    ensures forall j :: 0 <= j < |types| && types[j].0 in LoadedSet(types, basePath, load) ==>
      LoadedSet(types, basePath, load)[types[j].0] == load(FullPath(basePath, types[j].1))
    ensures forall t :: t in LoadedSet(types, basePath, load) ==>
      exists j :: 0 <= j < |types| && types[j].0 == t
    decreases |types|
  {
    if types != [] {
      var init := types[..|types| - 1];
      assert DistinctTypes(init);
      LoadedSetExact(init, basePath, load);
      var s := LoadedSet(types, basePath, load);
      forall t | t in s ensures exists j :: 0 <= j < |types| && types[j].0 == t {
        if t != types[|types| - 1].0 {
          var j :| 0 <= j < |init| && init[j].0 == t;
          assert types[j].0 == t;
        }
      }
    }
  }

  /**
   * `loadPBRTextureSet`'s set for a material holds exactly the table types
   * whose load of `basePath + "/" + filename` succeeded, with those ids; an
   * unknown material yields the empty set, which is never stored.
   */
  lemma TableLoadExact(name: string, basePath: string, load: Loader)
    ensures forall j :: 0 <= j < |TextureTypes(name)| ==>
      (PbrTypes[j] in LoadedSet(TextureTypes(name), basePath, load) <==>
         load(FullPath(basePath, TextureTypes(name)[j].1)) != 0)
    ensures forall j :: 0 <= j < |TextureTypes(name)| && PbrTypes[j] in LoadedSet(TextureTypes(name), basePath, load) ==>
      LoadedSet(TextureTypes(name), basePath, load)[PbrTypes[j]] == load(FullPath(basePath, TextureTypes(name)[j].1))
    ensures !KnownMaterial(name) ==> LoadedSet(TextureTypes(name), basePath, load) == map[]
  {
    var types := TextureTypes(name);
    assert DistinctTypes(types);
    LoadedSetExact(types, basePath, load);
  }

  /** The loaded set never stores a failed (zero) id, and its types come from the table. */
  lemma {:induction false} LoadedSetShape(types: seq<(string, string)>, basePath: string, load: Loader)
    ensures forall t :: t in LoadedSet(types, basePath, load) ==> LoadedSet(types, basePath, load)[t] != 0
    ensures forall t :: t in LoadedSet(types, basePath, load) ==>
      exists j :: 0 <= j < |types| && types[j].0 == t
    decreases |types|
  {
    if types != [] {
      var init := types[..|types| - 1];
      LoadedSetShape(init, basePath, load);
      var s := LoadedSet(types, basePath, load);
      forall t | t in s ensures exists j :: 0 <= j < |types| && types[j].0 == t {
        if t != types[|types| - 1].0 {
          assert t in LoadedSet(init, basePath, load);
          var j :| 0 <= j < |init| && init[j].0 == t;
          assert types[j].0 == t;
        }
      }
    }
  }

  /** The types of `order` present in `set`, in the order given. */
  function PresentTypes(ts: TextureSet, order: seq<string>): (r: seq<string>)
    decreases |order|
  {
    if order == [] then []
    else if order[0] in ts then [order[0]] + PresentTypes(ts, order[1..])
    else PresentTypes(ts, order[1..])
  }

  /** The binds of `bindPBRTextures`: one per present type of `order`, units counting up from `unit`. */
  function BindsFor(ts: TextureSet, order: seq<string>, unit: int): (r: seq<Bind>)
    decreases |order|
  {
    if order == [] then []
    else if order[0] in ts then [Bind(unit, ts[order[0]])] + BindsFor(ts, order[1..], unit + 1)
    else BindsFor(ts, order[1..], unit)
  }

  /**
   * The i-th bind binds the i-th present type at unit `unit + i`: units are
   * consecutive, absent types are skipped, and nothing outside `order` is bound.
   */
  lemma {:induction false} BindsForConsecutive(ts: TextureSet, order: seq<string>, unit: int)
    ensures |BindsFor(ts, order, unit)| == |PresentTypes(ts, order)| <= |order|
    ensures forall i :: 0 <= i < |BindsFor(ts, order, unit)| ==>
      PresentTypes(ts, order)[i] in ts &&
      BindsFor(ts, order, unit)[i] == Bind(unit + i, ts[PresentTypes(ts, order)[i]])
    ensures forall t :: t in PresentTypes(ts, order) <==> t in order && t in ts
    decreases |order|
  {
    if order != [] {
      BindsForConsecutive(ts, order[1..], if order[0] in ts then unit + 1 else unit);
      assert order == [order[0]] + order[1..];
    }
  }

  /** Binding from [t] + rest: t's bind when t is present, then the binds of rest. */
  lemma BindsForCons(ts: TextureSet, t: string, rest: seq<string>, unit: int)
    ensures BindsFor(ts, [t] + rest, unit) ==
      if t in ts then [Bind(unit, ts[t])] + BindsFor(ts, rest, unit + 1) else BindsFor(ts, rest, unit)
  {
    assert ([t] + rest)[1..] == rest;
  }

  /** Concatenation of bind traces is associative. */
  lemma AppendAssoc(a: seq<Bind>, b: seq<Bind>, c: seq<Bind>)
    ensures (a + b) + c == a + (b + c)
  {
  }

  /** The bind order, one type at a time. */
  lemma BindOrderSplit()
    ensures BindOrder == ["albedo"] + (["normal"] + (["roughness"] + (["ao"] + [])))
  {
  }

  /** `bindPBRTextures` never binds the displacement map, and binds at most four units. */
  lemma DisplacementNeverBound(ts: TextureSet, unit: int)
    ensures "displacement" !in PresentTypes(ts, BindOrder)
    ensures |BindsFor(ts, BindOrder, unit)| <= 4
  {
    BindsForConsecutive(ts, BindOrder, unit);
  }

  /**
   * The loading loop of `loadPBRTextureSet`: for each (type, filename) of the
   * table, load `basePath + "/" + filename` and keep type -> id when the id is
   * not 0.  Returns the set and the paths tried, in order.
   */
  method LoadTable(types: seq<(string, string)>, basePath: string, load: Loader)
    returns (textureSet: TextureSet, attempted: seq<string>)
    ensures textureSet == LoadedSet(types, basePath, load)
    ensures attempted == AttemptedPaths(types, basePath)
  {
    textureSet := map[];
    attempted := [];
    var i := 0;
    while i < |types|
      invariant 0 <= i <= |types|
      invariant textureSet == LoadedSet(types[..i], basePath, load)
      invariant attempted == AttemptedPaths(types[..i], basePath)
    {
      var (texType, filename) := types[i];
      var fullPath := FullPath(basePath, filename);
      attempted := attempted + [fullPath];
      var texID := load(fullPath);
      if texID != 0 {
        textureSet := textureSet[texType := texID];
      }
      assert types[..i + 1][..i] == types[..i];
      i := i + 1;
    }
    assert types[..i] == types;
  }

  class TextureManager {
    /** Simple textures: name -> texture id. */
    var textures: map<string, nat>
    /** PBR texture sets: name -> (type -> texture id). */
    var pbrTextures: map<string, TextureSet>

    /**
     * What the loading rules keep true: only successful (non-zero) ids are
     * stored, and only non-empty sets of a known material, with table types.
     */
    ghost predicate Valid()
      reads this
    {
      && (forall n :: n in textures ==> textures[n] != 0)
      && (forall n :: n in pbrTextures ==>
            && KnownMaterial(n)
            && pbrTextures[n] != map[]
            && (forall t :: t in pbrTextures[n] ==> t in PbrTypes && pbrTextures[n][t] != 0))
    }

    constructor ()
      ensures Valid()
      ensures textures == map[] && pbrTextures == map[]
    {
      textures := map[];
      pbrTextures := map[];
    }

    /** `loadTexture`: store name -> id only when the load succeeded; return the loader's id. */
    method LoadTexture(name: string, path: string, load: Loader) returns (id: nat)
      requires Valid()
      modifies this
      ensures Valid()
      ensures id == load(path)
      ensures textures == if id != 0 then old(textures)[name := id] else old(textures)
      ensures pbrTextures == old(pbrTextures)
      ensures GetTexture(name) == if id != 0 then id else old(GetTexture(name))
    {
      id := load(path);
      if id != 0 {
        textures := textures[name := id];
      }
    }

    /** `getTexture`: the stored id, or 0 when the name is absent. */
    function GetTexture(name: string): (id: nat)
      reads this
      ensures name in textures ==> id == textures[name]
      ensures Valid() ==> (id != 0 <==> name in textures)
    {
      if name in textures then textures[name] else 0
    }

    /** `bindTexture`: bind the named simple texture at `unit`, or nothing when it is absent. */
    method BindTexture(name: string, unit: nat) returns (binds: seq<Bind>)
      ensures binds == TextureBinds(name, unit)
      ensures |binds| <= 1
      ensures Valid() ==> (binds != [] <==> GetTexture(name) != 0)
      ensures binds != [] ==> binds == [Bind(unit, GetTexture(name))]
    {
      binds := [];
      if name in textures {
        binds := [Bind(unit, textures[name])];
      }
    }

    /** The binds `bindTexture(name, unit)` issues. */
    function TextureBinds(name: string, unit: nat): seq<Bind>
      reads this
    {
      if name in textures then [Bind(unit, textures[name])] else []
    }

    /**
     * `loadPBRTextureSet`: try every (type, filename) of the name's table,
     * collect the successful loads, and store the set only when it is not empty.
     * Returns the paths handed to the loader, in order.
     */
    method LoadPBRTextureSet(name: string, basePath: string, load: Loader) returns (attempted: seq<string>)
      requires Valid()
      modifies this
      ensures Valid()
      ensures attempted == AttemptedPaths(TextureTypes(name), basePath)
      ensures var s := LoadedSet(TextureTypes(name), basePath, load);
        pbrTextures == if s != map[] then old(pbrTextures)[name := s] else old(pbrTextures)
      ensures textures == old(textures)
      ensures HasPBRTextureSet(name) <==>
        old(HasPBRTextureSet(name)) || LoadedSet(TextureTypes(name), basePath, load) != map[]
      ensures !KnownMaterial(name) ==> attempted == [] && pbrTextures == old(pbrTextures)
    {
      var textureTypes := TextureTypes(name);
      var textureSet;
      textureSet, attempted := LoadTable(textureTypes, basePath, load);
      if textureSet != map[] {
        LoadedSetShape(textureTypes, basePath, load);
        pbrTextures := pbrTextures[name := textureSet];
      }
    }

    /** `hasPBRTextureSet`: some earlier load stored a (necessarily non-empty) set for `name`. */
    predicate HasPBRTextureSet(name: string)
      reads this
      ensures Valid() && HasPBRTextureSet(name) ==> KnownMaterial(name) && name in pbrTextures && pbrTextures[name] != map[]
      ensures !KnownMaterial(name) && Valid() ==> !HasPBRTextureSet(name)
    {
      name in pbrTextures
    }

    /** The binds `bindPBRTextures(name, startUnit)` issues. */
    function PBRBinds(name: string, startUnit: nat): seq<Bind>
      reads this
    {
      if name in pbrTextures then BindsFor(pbrTextures[name], BindOrder, startUnit) else []
    }

    /**
     * `bindPBRTextures`: bind albedo, normal, roughness and ao, those present,
     * to consecutive units from `startUnit`; an unknown name binds nothing.
     */
    method BindPBRTextures(name: string, startUnit: nat) returns (binds: seq<Bind>)
      ensures binds == PBRBinds(name, startUnit)
      ensures !HasPBRTextureSet(name) ==> binds == []
    {
      binds := [];
      if name in pbrTextures {
        var textureSet := pbrTextures[name];
        var unit := startUnit;
        // binds + (the binds still due for the remaining types) is the whole trace
        ghost var afterAo: seq<string> := [];
        ghost var afterRoughness := ["ao"] + afterAo;
        ghost var afterNormal := ["roughness"] + afterRoughness;
        ghost var afterAlbedo := ["normal"] + afterNormal;
        BindOrderSplit();
        var b;
        b, unit := BindIfPresent(textureSet, "albedo", unit, afterAlbedo);
        binds := b;
        b, unit := BindIfPresent(textureSet, "normal", unit, afterNormal);
        AppendAssoc(binds, b, BindsFor(textureSet, afterNormal, unit));
        binds := binds + b;
        b, unit := BindIfPresent(textureSet, "roughness", unit, afterRoughness);
        AppendAssoc(binds, b, BindsFor(textureSet, afterRoughness, unit));
        binds := binds + b;
        b, unit := BindIfPresent(textureSet, "ao", unit, afterAo);
        AppendAssoc(binds, b, BindsFor(textureSet, afterAo, unit));
        binds := binds + b;
      }
    }
  }

  /**
   * One block of `bindPBRTextures`: when the set has type t, bind it at
   * `unit` and move to the next unit.  What it binds, followed by the binds
   * of the types after t, is the binding of t and those types.
   */
  method BindIfPresent(textureSet: TextureSet, t: string, unit: int, ghost rest: seq<string>)
    returns (binds: seq<Bind>, next: int)
    ensures binds == (if t in textureSet then [Bind(unit, textureSet[t])] else [])
    ensures next == unit + |binds|
    ensures binds + BindsFor(textureSet, rest, next) == BindsFor(textureSet, [t] + rest, unit)
  {
    BindsForCons(textureSet, t, rest, unit);
    binds, next := [], unit;
    if t in textureSet {
      binds := [Bind(unit, textureSet[t])];
      next := unit + 1;
    }
  }

  /**
   * The binds of a stored set: one per present type among albedo, normal,
   * roughness and ao, in that order, at consecutive units from `startUnit`.
   */
  lemma PBRBindsShape(tm: TextureManager, name: string, startUnit: nat)
    requires tm.HasPBRTextureSet(name)
    ensures var ts := tm.pbrTextures[name];
      |tm.PBRBinds(name, startUnit)| == |PresentTypes(ts, BindOrder)| <= 4 &&
      forall i :: 0 <= i < |tm.PBRBinds(name, startUnit)| ==>
        PresentTypes(ts, BindOrder)[i] in ts &&
        tm.PBRBinds(name, startUnit)[i] == Bind(startUnit + i, ts[PresentTypes(ts, BindOrder)[i]])
  {
    BindsForConsecutive(tm.pbrTextures[name], BindOrder, startUnit);
  }
}
