# AnisoCADO PSF-product helpers, modelled in Dafny

AnisoCADO builds analytical SCAO point-spread functions (PSFs) for the ELT.
The helpers in `anisocado/misc.py` put those PSFs together into products:

- `field_positions_for_simcado_psf` picks the field positions where a PSF is
  sampled. It starts with the origin and then, for each radius, takes one
  point at each angle 0, theta, 2 theta, ... below 360 degrees.
- `make_simcado_psf_file` builds the field-varying PSF file for SimCADO. The
  file is a list of blocks (FITS extensions):
  - block 0 holds only a header: descriptive cards, `ETYPE`, `ECAT = 1`,
    `EDATA = 2`, one `WAVEEXT{n}` card per wavelength, then the caller's cards;
  - block 1 is the catalogue of sample positions (columns `x`, `y`, `layer`);
  - block `2 + i` is the stack of kernels for wavelength `i`, one layer per
    sample, with `WAVE0` and `WAVEUNIT` set.
- `make_psf_grid` moves one PSF model to every offset of a square `np.mgrid`
  and collects the kernels, row by row, into one list.
- `strehl_map` does the same sweep and stores each Strehl ratio in a 2-D
  array.

The model has these modules:

- `NumpyRanges`: integer `np.arange` and `np.mgrid` axes.
- `Sweeps`: the row-major double loop that all three sweeps share.
- `Decimal`: the decimal numbering inside `WAVEEXT{n}`.
- `FieldSampler`, `GridSweeps`, `SimcadoProduct`: the four operations.
- `Wrappers`: the `Option` and `Result` types.

The PSF model (`AnalyticalScaoPsf`), cosine and sine, and the header of the
PSF's own file block `psf.hdu` are parameters of the model. They are functions the caller
supplies: `kernelAt(dx, dy)`, `strehlAt(dx, dy)`, `kernel(wave, dx, dy)`,
`cos(deg)`, `sin(deg)` and `hduHeader(wave)`. So every property below holds
for any PSF model.

Error paths follow the code:

- A zero `theta` fails only when there is a radius, because
  `np.arange(0, 360, 0)` is only evaluated inside the radius loop.
- An `np.mgrid` axis with a zero step fails. So does an axis whose length
  `ceil((stop - start) / step)` is negative, because NumPy refuses a negative
  array dimension.
- An empty `coords` list fails in `make_simcado_psf_file`, because
  `x, y = np.array([]).T` cannot unpack.
- An empty wavelength list does not fail; the code then builds a two-block
  file.
- `header_cards=None` adds no cards.

## Model

| member | source | states |
|---|---|---|
| NumpyRanges.CeilDiv | anisocado/misc.py:197 | the result is ceil(a / b) for either sign of b: (q - 1) * b < a <= q * b when b > 0, mirrored when b < 0 |
| NumpyRanges.Arange | anisocado/misc.py:197 | `np.arange` fails exactly when the step is zero |
| NumpyRanges.ArangeBounds | anisocado/misc.py:197 | entry k of `np.arange(start, stop, step)` is start + k * step; every entry is before stop in the direction of the step, and one more step would reach or pass stop |
| NumpyRanges.MgridAxis | anisocado/misc.py:13 | an `np.mgrid` axis fails exactly when the step is zero or stop lies a whole step or more behind start; otherwise it equals the `np.arange` with the same bounds |
| NumpyRanges.NegativeLengthIff | anisocado/misc.py:31 | the axis length ceil((stop - start) / step) is negative exactly when stop lies a whole step or more behind start |
| Sweeps.SweepLength | anisocado/misc.py:196-199 | a double loop over xs and ys produces \|xs\| * \|ys\| items |
| Sweeps.SweepAt | anisocado/misc.py:33-37 | item i * \|ys\| + j of the double loop is f(xs[i], ys[j]), and that index is in range |
| Sweeps.SweepNoColumns | anisocado/misc.py:196-197 | an empty inner range adds nothing, however many outer iterations there are |
| Decimal.NatToString | anisocado/misc.py:130 | the decimal form of a number is non-empty, consists of digits only, and starts with 0 only for the number 0 |
| Decimal.ParseNatToString | anisocado/misc.py:130 | reading the decimal form back gives the number |
| Decimal.NatToStringInjective | anisocado/misc.py:130 | different numbers have different decimal forms |
| FieldSampler.FieldPositionsOf | anisocado/misc.py:193-201 | fails exactly when theta is zero and there is at least one radius; on success the list starts with the origin |
| FieldSampler.FieldPositions | anisocado/misc.py:193-201 | the nested loop that appends one point per radius and angle returns exactly FieldPositionsOf, or the same error |
| FieldSampler.FieldPositionsLength | anisocado/misc.py:193-199 | for theta > 0 there are 1 + \|radii\| * ceil(360 / theta) positions |
| FieldSampler.FieldPositionAt | anisocado/misc.py:196-199 | for theta > 0, position 1 + ri * ceil(360 / theta) + k is (r * cos(k theta), r * sin(k theta)) for radius r = radii[ri], and 0 <= k theta < 360 |
| FieldSampler.RingAngle | anisocado/misc.py:197 | a ring has ceil(360 / theta) angles, and angle k is k theta, below 360 |
| FieldSampler.NegativeThetaOnlyOrigin | anisocado/misc.py:197 | a negative theta gives empty rings, so the result is only the origin |
| FieldSampler.NoRadiiOnlyOrigin | anisocado/misc.py:193-196 | with no radii the result is only the origin, for any theta, zero included |
| FieldSampler.DefaultLayout | anisocado/misc.py:161-195 | `radii=None` means radii [1, 2, 4, 8, 16, 32], and the default theta of 45 gives 49 positions |
| FieldSampler.QuarterTurnsExample | anisocado/misc.py:193-199 | radius 5 with theta 90 gives the origin, (5, 0), (0, 5), (-5, 0), (0, -5), for a cos and sin that are exact at the quarter turns |
| GridSweeps.PsfGrid | anisocado/misc.py:29-39 | fails exactly when the `np.mgrid[-r:r+1:dr]` axis fails; otherwise it returns the kernel at every (x, y) of the grid, x in the outer loop and y in the inner loop |
| GridSweeps.StrehlMap | anisocado/misc.py:11-21 | fails exactly when the `np.mgrid[-r:r+dr:dr]` axis fails; otherwise it returns a fresh n-by-n array, n the axis length, whose cell (i, j) is the Strehl ratio at offset (axis[i], axis[j]) |
| GridSweeps.KernelAxisShape | anisocado/misc.py:31 | for r >= 0 and dr > 0 the grid axis exists and runs -r, -r + dr, ..., up to the last value not above r |
| GridSweeps.StrehlAxisShape | anisocado/misc.py:13 | for r >= 0 and dr > 0 the map axis exists and runs -r, -r + dr, ..., up to the last value below r + dr |
| GridSweeps.PsfGridEntry | anisocado/misc.py:31-37 | the grid has n * n kernels, and entry i * n + j is the kernel at offset (-r + i dr, -r + j dr) |
| GridSweeps.DefaultPsfGrid | anisocado/misc.py:29-31 | the defaults r = 14, dr = 7 give the axis -14, -7, 0, 7, 14 and 25 kernels |
| GridSweeps.DefaultStrehlAxis | anisocado/misc.py:11-13 | the defaults r = 25, dr = 3 give 18 axis values from -25 to 26 |
| SimcadoProduct.WaveExtNumberOfKey | anisocado/misc.py:130 | the block number can be read back from its `WAVEEXT` keyword |
| SimcadoProduct.WaveExtKeyInjective | anisocado/misc.py:130 | different block numbers give different `WAVEEXT` keywords |
| SimcadoProduct.WaveExtKeyIsNew | anisocado/misc.py:125-131 | no `WAVEEXT` keyword is one of the descriptive keywords, `ETYPE`, `ECAT` or `EDATA` |
| SimcadoProduct.FixedKeysDistinct | anisocado/misc.py:125-129 | `ETYPE`, `ECAT` and `EDATA` are different from each other and from the descriptive keywords |
| SimcadoProduct.WaveExtCards | anisocado/misc.py:130-131 | the wavelength cards hold `WAVEEXT{e}` = wavelengths[e - 2] for every block e of a wavelength, and no other keyword |
| SimcadoProduct.BuildPrimaryHeader | anisocado/misc.py:125-135 | the block 0 header has exactly the structural keywords plus the caller's keywords; caller cards win; every other structural card keeps the value the function gives it |
| SimcadoProduct.StructuralCards | anisocado/misc.py:125-131 | the fixed cards followed by the wavelength cards form the block 0 header when the caller adds no cards |
| SimcadoProduct.MergeCards | anisocado/misc.py:134-135 | putting the caller's cards on top of that header gives the block 0 header for those cards |
| SimcadoProduct.PrimaryHeaderWithoutCards | anisocado/misc.py:125-134 | without caller cards, block 0 has exactly the structural keywords, with `ETYPE = FVPSF`, `ECAT = 1`, `EDATA = 2` and every `WAVEEXT{e}` equal to its wavelength |
| SimcadoProduct.PrimaryHeaderUnique | anisocado/misc.py:125-135 | the block 0 header is determined by the wavelengths and the caller's cards |
| SimcadoProduct.Columns | anisocado/misc.py:122 | splitting the coordinates into an x and a y column keeps their length, and zipping the columns gives the coordinates back |
| SimcadoProduct.BuildCatalogue | anisocado/misc.py:122-141 | row j of the catalogue is (coords[j].x, coords[j].y, j), and its header holds `NUMPSFS` = the number of samples, `CATTYPE = table` and `CUNIT1 = arcsec` |
| SimcadoProduct.BuildCube | anisocado/misc.py:146-152 | the data block has the library header's keywords plus `WAVE0` and `WAVEUNIT`, with `WAVE0` = the wavelength, `WAVEUNIT = um` and every other library card unchanged; layer j is the kernel at sample j |
| SimcadoProduct.BuildCubes | anisocado/misc.py:143-154 | one data block per wavelength, in the order given, each as BuildCube states |
| SimcadoProduct.MakeSimcadoPsfFile | anisocado/misc.py:122-158 | fails exactly when there are no coordinates; otherwise the file has 2 + \|wavelengths\| blocks laid out as above; when the caller's cards avoid the structural keywords, the blocks cross-reference each other (ConsistentProduct) |
| SimcadoProduct.ProductConsistency | anisocado/misc.py:128-156 | with blocks laid out like that, `ECAT`, `EDATA` and each `WAVEEXT{e}` in block 0 point at the right blocks, and every cube has one layer per catalogue row |

## Left out

- The physics of `AnalyticalScaoPsf` is not modelled. The kernel, the Strehl ratio and the PSF's own file block are caller-supplied functions of the offset and the wavelength.
- GridSweeps.PsfGrid and GridSweeps.StrehlMap treat the shifted PSF as a function of the offset alone. Any effect of earlier `shift_off_axis` calls on the same PSF object is not modelled.
- The model does not compute cos, sin or the degree-to-radian conversion. They are caller-supplied functions of a whole number of degrees.
- FieldSampler.FieldPositions: theta is a whole number of degrees and the radii are exact reals, so a fractional theta, floating-point `np.arange` lengths and rounding of the points are not modelled.
- GridSweeps.PsfGrid and GridSweeps.StrehlMap take integer `r` and `dr`. Non-integer grids are not modelled.
- FITS header details are not modelled: keyword case-folding, HIERARCH cards for keywords longer than eight characters (from `WAVEEXT10` on), card order, card comments (the comments on `ECAT` and `EDATA`), and the default cards that astropy adds to a primary or table block.
- SimcadoProduct.BuildCube: `hduHeader(wave)` stands for the header of `psf.hdu` as the model returns it; the shape cards (`BITPIX`, `NAXIS`, `NAXIS1` to `NAXIS3`) that astropy recomputes when the kernel stack is assigned as the block's data are not modelled, so the cube header is stated as those library cards plus `WAVE0` and `WAVEUNIT`.
- The `**kwargs` construction options of `AnalyticalScaoPsf` are folded into the caller-supplied `kernel`, `kernelAt`, `strehlAt` and `hduHeader`; the `TypeError` raised when `kwargs` already holds `wavelength` (the model is built with `wavelength=wave` as well) is not modelled.
- SimcadoProduct.BuildCatalogue: the catalogue header holds only the three catalogue cards; the column-description cards that astropy writes for the table are not modelled.
- The progress `print` in the wavelength loop is output only and is not modelled.
- `make_image_of_psf_grid` (plotting and saving images) is not part of this model.
- `on_axis_strehl_for_kernel_size` (a list of external PSF evaluations) is not part of this model.
- Writing the file to disk is not part of this model; the model returns the list of blocks.
