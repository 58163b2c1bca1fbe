/**
 The product assembler `make_simcado_psf_file`: a field-varying PSF file for
 SimCADO, as a list of blocks (FITS extensions). Block 0 carries only a
 header, block 1 is the catalogue of sample positions (columns x, y, layer),
 and block 2 + i is the stack of kernels for wavelength i, one layer per
 sample. Headers are maps from keyword to value. The PSF model is the
 caller's: `kernel(wave, dx, dy)` is what a model built for that wavelength
 returns when shifted to (dx, dy), and `hduHeader(wave)` the header of its
 own file block.
 */
module SimcadoProduct {
  import opened Wrappers
  import opened NumpyRanges
  import opened Decimal
  import opened FieldSampler

  /** A header value. */
  datatype Value = Str(s: string) | Int(i: int) | Real(r: real) | Bool(b: bool)

  type Header = map<string, Value>

  /** A block of the file; K is the type of one kernel image. */
  datatype Hdu<K> =
    | Primary(header: Header)
    | Catalogue(x: seq<real>, y: seq<real>, layer: seq<int>, header: Header)
    | Cube(header: Header, layers: seq<K>)

  datatype ProductError =
    /** `x, y = np.array(coords).T` cannot unpack an empty coordinate list. */
    | NoCoordinates

  const ETYPE := "ETYPE"
  const ECAT := "ECAT"
  const EDATA := "EDATA"
  const WAVE0 := "WAVE0"
  const WAVEUNIT := "WAVEUNIT"
  const NUMPSFS := "NUMPSFS"
  const CATTYPE := "CATTYPE"
  const CUNIT1 := "CUNIT1"

  /** The descriptive keywords block 0 starts out with, all empty. */
  const MetaKeys: set<string> := {"AUTHOR", "DATE_CRE", "DATE_MOD", "SOURCE", "STATUS"}

  /** The keyword naming the block that holds a wavelength: WAVEEXT2, WAVEEXT3, ... */
  function WaveExtKey(ext: nat): string
  {
    "WAVEEXT" + NatToString(ext)
  }

  /** The block number a WAVEEXT keyword names. */
  function WaveExtNumber(key: string): int
  {
    if |key| < 7 then -1 else ParseNat(key[7..])
  }

  /** The block number can be read back from its keyword. */
  lemma WaveExtNumberOfKey()
    ensures forall ext: nat :: WaveExtNumber(WaveExtKey(ext)) == ext
  {
    forall ext: nat ensures WaveExtNumber(WaveExtKey(ext)) == ext {
      assert WaveExtKey(ext)[7..] == NatToString(ext);
      ParseNatToString(ext);
    }
  }

  /** Different block numbers give different keywords. */
  lemma WaveExtKeyInjective()
    ensures forall a: nat, b: nat :: WaveExtKey(a) == WaveExtKey(b) ==> a == b
  {
    WaveExtNumberOfKey();
  }

  /** No WAVEEXT keyword is one of the other structural keywords of block 0. */
  lemma WaveExtKeyIsNew(ext: nat)
    ensures WaveExtKey(ext) !in MetaKeys + {ETYPE, ECAT, EDATA}
  {
    assert WaveExtKey(ext)[0] == 'W';
  }

  /** The fixed keywords of block 0 are all different. */
  lemma FixedKeysDistinct()
    ensures ETYPE !in MetaKeys && ECAT !in MetaKeys && EDATA !in MetaKeys
    ensures ETYPE != ECAT && ETYPE != EDATA && ECAT != EDATA
  {
    assert ETYPE[1] == 'T' && ECAT[1] == 'C' && EDATA[1] == 'D';
  }

  /** The WAVEEXT keywords for w wavelengths, whose blocks are 2 .. w + 1. */
  function WaveExtKeys(w: nat): set<string>
  {
    set e | 2 <= e < w + 2 :: WaveExtKey(e)
  }

  /** All keywords that `make_simcado_psf_file` itself puts in block 0. */
  function StructuralKeys(w: nat): set<string>
  {
    MetaKeys + {ETYPE, ECAT, EDATA} + WaveExtKeys(w)
  }

  /** One card per wavelength, keyed by the number of the block that holds
      it: wavelength i goes under the keyword for block i + 2. */
  function WaveExtCards(wavelengths: seq<real>): (cards: Header)
    ensures forall e :: 2 <= e < |wavelengths| + 2 ==> WaveExtKey(e) in cards && cards[WaveExtKey(e)] == Real(wavelengths[e - 2])
    ensures forall k :: k in cards ==> exists e :: 2 <= e < |wavelengths| + 2 && k == WaveExtKey(e)
  {
    WaveExtNumberOfKey();
    map e | 2 <= e < |wavelengths| + 2 :: WaveExtKey(e) := Real(wavelengths[e - 2])
  }

  /** The caller's extra cards; `header_cards=None` adds none. */
  function CardsOf(headerCards: Option<Header>): Header
  {
    match headerCards
    case None => map[]
    case Some(cards) => cards
  }

  /** Block 0's header: the structural cards, then the caller's cards on top,
      so that a caller card replaces a structural card of the same keyword and
      leaves every other one as it was. */
  ghost predicate IsPrimaryHeader(h: Header, wavelengths: seq<real>, cards: Header)
  {
    && h.Keys == StructuralKeys(|wavelengths|) + cards.Keys
    && (forall k :: k in cards ==> h[k] == cards[k])
    && (forall k :: k in MetaKeys && k !in cards ==> h[k] == Str(""))
    && (ETYPE !in cards ==> h[ETYPE] == Str("FVPSF"))
    && (ECAT !in cards ==> h[ECAT] == Int(1))
    && (EDATA !in cards ==> h[EDATA] == Int(2))
    && (forall e :: 2 <= e < |wavelengths| + 2 && WaveExtKey(e) !in cards ==>
          h[WaveExtKey(e)] == Real(wavelengths[e - 2]))
  }

  /** Builds `ext0_dict` and merges it, then the caller's cards, into the
      header of a fresh primary block. */
  method BuildPrimaryHeader(wavelengths: seq<real>, headerCards: Option<Header>) returns (header: Header)
    ensures IsPrimaryHeader(header, wavelengths, CardsOf(headerCards))
  {
    FixedKeysDistinct();
    var ext0 := map k | k in MetaKeys :: Str("");
    ext0 := ext0[ETYPE := Str("FVPSF")];
    ext0 := ext0[ECAT := Int(1)];
    ext0 := ext0[EDATA := Int(2)];
    var fixed := ext0;
    var waveCards := WaveExtCards(wavelengths);
    ext0 := ext0 + waveCards;
    StructuralCards(fixed, waveCards, wavelengths);
    // `header.update(None)` leaves the header as it is, like an empty update.
    header := ext0 + CardsOf(headerCards);
    MergeCards(ext0, wavelengths, CardsOf(headerCards));
  }

  /** The fixed cards followed by the WAVEEXT cards form block 0's header
      when the caller adds nothing. */
  lemma StructuralCards(fixed: Header, waveCards: Header, wavelengths: seq<real>)
    requires fixed.Keys == MetaKeys + {ETYPE, ECAT, EDATA}
    requires forall k :: k in MetaKeys ==> fixed[k] == Str("")
    requires fixed[ETYPE] == Str("FVPSF") && fixed[ECAT] == Int(1) && fixed[EDATA] == Int(2)
    requires waveCards == WaveExtCards(wavelengths)
    ensures IsPrimaryHeader(fixed + waveCards, wavelengths, map[])
  {
    forall k | k in waveCards ensures k !in fixed {
      var e :| 2 <= e < |wavelengths| + 2 && k == WaveExtKey(e);
      WaveExtKeyIsNew(e);
    }
    assert waveCards.Keys == WaveExtKeys(|wavelengths|);
  }

  /** Putting the caller's cards on top of the structural header gives block
      0's header for those cards. */
  lemma MergeCards(h: Header, wavelengths: seq<real>, cards: Header)
    requires IsPrimaryHeader(h, wavelengths, map[])
    ensures IsPrimaryHeader(h + cards, wavelengths, cards)
  {
  }

  /** Block 1: one row per sample in input order, `layer` numbering the rows,
      and the catalogue keywords. */
  ghost predicate IsCatalogue<K>(h: Hdu<K>, coords: seq<Point>)
  {
    && h.Catalogue?
    && |h.x| == |coords| && |h.y| == |coords| && |h.layer| == |coords|
    && (forall j :: 0 <= j < |coords| ==> h.x[j] == coords[j].x && h.y[j] == coords[j].y && h.layer[j] == j)
    && h.header == map[NUMPSFS := Int(|coords|), CATTYPE := Str("table"), CUNIT1 := Str("arcsec")]
  }

  /** Block 2 + i: the library's block for that wavelength, its kernels
      replaced by one layer per sample in input order, WAVE0 and WAVEUNIT set. */
  ghost predicate IsCube<K>(h: Hdu<K>, wave: real, coords: seq<Point>, kernel: (real, real, real) -> K, libHeader: Header)
  {
    && h.Cube?
    && h.header.Keys == libHeader.Keys + {WAVE0, WAVEUNIT}
    && h.header[WAVE0] == Real(wave)
    && h.header[WAVEUNIT] == Str("um")
    && (forall k :: k in libHeader && k != WAVE0 && k != WAVEUNIT ==> h.header[k] == libHeader[k])
    && |h.layers| == |coords|
    && forall j :: 0 <= j < |coords| ==> h.layers[j] == kernel(wave, coords[j].x, coords[j].y)
  }

  /** What a reader of the file relies on: block 0 says where the catalogue
      and the data start, the catalogue numbers its rows 0, 1, ..., every cube
      has one layer per row, and WAVEEXT{e} in block 0 names the wavelength
      that block e carries. */
  ghost predicate ConsistentProduct<K>(hdus: seq<Hdu<K>>)
  {
    && |hdus| >= 2
    && hdus[0].Primary? && hdus[1].Catalogue?
    && ECAT in hdus[0].header && hdus[0].header[ECAT] == Int(1)
    && EDATA in hdus[0].header && hdus[0].header[EDATA] == Int(2)
    && var rows := |hdus[1].layer|;
    && (forall j :: 0 <= j < rows ==> hdus[1].layer[j] == j)
    && NUMPSFS in hdus[1].header && hdus[1].header[NUMPSFS] == Int(rows)
    && forall e :: 2 <= e < |hdus| ==>
         && hdus[e].Cube?
         && |hdus[e].layers| == rows
         && WaveExtKey(e) in hdus[0].header && WAVE0 in hdus[e].header
         && hdus[0].header[WaveExtKey(e)] == hdus[e].header[WAVE0]
  }

  /** `np.array(coords).T`: the x column and the y column. */
  function Columns(coords: seq<Point>): (cols: (seq<real>, seq<real>))
    ensures |cols.0| == |coords| && |cols.1| == |coords|
    ensures Zip(cols.0, cols.1) == coords
  {
    (seq(|coords|, j requires 0 <= j < |coords| => coords[j].x),
     seq(|coords|, j requires 0 <= j < |coords| => coords[j].y))
  }

  /** Rows of two columns read back as points. */
  function Zip(xs: seq<real>, ys: seq<real>): seq<Point>
    requires |xs| == |ys|
  {
    seq(|xs|, j requires 0 <= j < |xs| => Point(xs[j], ys[j]))
  }

  /** The kernels of one wavelength's model, shifted to each sample in turn,
      in the order of the samples. */
  function KernelCube<K>(wave: real, coords: seq<Point>, kernel: (real, real, real) -> K): seq<K>
  {
    seq(|coords|, j requires 0 <= j < |coords| => kernel(wave, coords[j].x, coords[j].y))
  }

  /** The catalogue block: the table of x, y and layer = 0, 1, ..., with the
      catalogue keywords added to its header. */
  method BuildCatalogue<K>(coords: seq<Point>) returns (catalogue: Hdu<K>)
    ensures IsCatalogue(catalogue, coords)
  {
    var cols := Columns(coords);
    var x, y := cols.0, cols.1;
    var layers := Arange(0, |x|, 1).value;
    ArangeBounds(0, |x|, 1);
    var ext1 := map[NUMPSFS := Int(|x|), CATTYPE := Str("table"), CUNIT1 := Str("arcsec")];
    catalogue := Catalogue(x, y, layers, ext1);
    assert Zip(x, y) == coords;
    forall j | 0 <= j < |coords| ensures x[j] == coords[j].x && y[j] == coords[j].y {
      assert Zip(x, y)[j] == coords[j];
    }
  }

  /** One data block: the kernels of a model built for this wavelength, at
      every sample, in the library's block with WAVE0 and WAVEUNIT set. */
  method BuildCube<K>(wave: real, coords: seq<Point>, kernel: (real, real, real) -> K, libHeader: Header)
    returns (cube: Hdu<K>)
    ensures IsCube(cube, wave, coords, kernel, libHeader)
  {
    var kernels := KernelCube(wave, coords, kernel);
    var hdr := libHeader;
    hdr := hdr[WAVE0 := Real(wave)];
    hdr := hdr[WAVEUNIT := Str("um")];
    cube := Cube(hdr, kernels);
  }

  /** `psf_hdus`: one data block per wavelength, in the order given. */
  method BuildCubes<K>(wavelengths: seq<real>, coords: seq<Point>, kernel: (real, real, real) -> K, hduHeader: real -> Header)
    returns (cubes: seq<Hdu<K>>)
    ensures |cubes| == |wavelengths|
    ensures forall c :: 0 <= c < |wavelengths| ==> IsCube(cubes[c], wavelengths[c], coords, kernel, hduHeader(wavelengths[c]))
  {
    cubes := [];
    for i := 0 to |wavelengths|
      invariant |cubes| == i
      invariant forall c :: 0 <= c < i ==> IsCube(cubes[c], wavelengths[c], coords, kernel, hduHeader(wavelengths[c]))
    {
      var wave := wavelengths[i];
      var cube := BuildCube(wave, coords, kernel, hduHeader(wave));
      cubes := cubes + [cube];
    }
  }

  /** `make_simcado_psf_file(coords, wavelengths, header_cards)`. */
  method MakeSimcadoPsfFile<K>(coords: seq<Point>, wavelengths: seq<real>, headerCards: Option<Header>,
                               kernel: (real, real, real) -> K, hduHeader: real -> Header)
    returns (res: Result<seq<Hdu<K>>, ProductError>)
    ensures res.Failure? <==> coords == []
    ensures res.Success? ==> |res.value| == 2 + |wavelengths|
    ensures res.Success? ==> res.value[0].Primary? && IsPrimaryHeader(res.value[0].header, wavelengths, CardsOf(headerCards))
    ensures res.Success? ==> IsCatalogue(res.value[1], coords)
    ensures res.Success? ==> forall e :: 2 <= e < |res.value| ==>
      IsCube(res.value[e], wavelengths[e - 2], coords, kernel, hduHeader(wavelengths[e - 2]))
    ensures res.Success? && StructuralKeys(|wavelengths|) !! CardsOf(headerCards).Keys ==> ConsistentProduct(res.value)
  {
    if coords == [] {
      return Failure(NoCoordinates);
    }
    var primary := BuildPrimaryHeader(wavelengths, headerCards);
    var catalogue := BuildCatalogue(coords);
    var cubes := BuildCubes(wavelengths, coords, kernel, hduHeader);
    var hdus := [Primary(primary), catalogue] + cubes;
    assert hdus[2..] == cubes;
    if StructuralKeys(|wavelengths|) !! CardsOf(headerCards).Keys {
      ProductConsistency(hdus, coords, wavelengths, CardsOf(headerCards), kernel, hduHeader);
    }
    return Success(hdus);
  }

  /** Blocks laid out as `make_simcado_psf_file` lays them out cross-reference
      each other correctly, as long as the caller's cards leave the
      structural keywords alone. */
  lemma ProductConsistency<K>(hdus: seq<Hdu<K>>, coords: seq<Point>, wavelengths: seq<real>, cards: Header,
                              kernel: (real, real, real) -> K, hduHeader: real -> Header)
    requires |hdus| == 2 + |wavelengths|
    requires hdus[0].Primary? && IsPrimaryHeader(hdus[0].header, wavelengths, cards)
    requires IsCatalogue(hdus[1], coords)
    requires forall e :: 2 <= e < |hdus| ==> IsCube(hdus[e], wavelengths[e - 2], coords, kernel, hduHeader(wavelengths[e - 2]))
    requires StructuralKeys(|wavelengths|) !! cards.Keys
    ensures ConsistentProduct(hdus)
  {
    var h := hdus[0].header;
    assert ECAT in StructuralKeys(|wavelengths|) && EDATA in StructuralKeys(|wavelengths|);
    forall e | 2 <= e < |hdus|
      ensures WaveExtKey(e) in h && h[WaveExtKey(e)] == hdus[e].header[WAVE0]
    {
      assert WaveExtKey(e) in WaveExtKeys(|wavelengths|);
    }
  }

  /** Without caller cards, every structural keyword is as the function sets it. */
  lemma PrimaryHeaderWithoutCards(h: Header, wavelengths: seq<real>)
    requires IsPrimaryHeader(h, wavelengths, map[])
    ensures h.Keys == StructuralKeys(|wavelengths|)
    ensures h[ETYPE] == Str("FVPSF") && h[ECAT] == Int(1) && h[EDATA] == Int(2)
    ensures forall e :: 2 <= e < |wavelengths| + 2 ==> h[WaveExtKey(e)] == Real(wavelengths[e - 2])
  {
  }

  /** The header of block 0 is determined by the wavelengths and the caller's
      cards: two headers that both satisfy IsPrimaryHeader are equal. */
  lemma PrimaryHeaderUnique(h1: Header, h2: Header, wavelengths: seq<real>, cards: Header)
    requires IsPrimaryHeader(h1, wavelengths, cards) && IsPrimaryHeader(h2, wavelengths, cards)
    ensures h1 == h2
  {
    forall k | k in h1.Keys ensures h1[k] == h2[k] {
      if k !in cards && k in WaveExtKeys(|wavelengths|) {
        var e :| 2 <= e < |wavelengths| + 2 && k == WaveExtKey(e);
      }
    }
  }
}
