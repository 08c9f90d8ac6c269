/** Stand-ins for the third-party objects and renderers that the custom
    objects wrap: plotly, matplotlib, PIL, numpy, pandas, the dataprep
    container and the markdown converter. Their objects are opaque handles;
    their rendering calls are total functions gathered in `Renderers`, so a
    model result says exactly which external output it passes on. */
module External {
  import opened Base64

  /** A `plotly.graph_objects.Figure`. */
  datatype PlotlyFigure = PlotlyFigure(id: nat)

  /** A `matplotlib.figure.Figure`; `dpi` is its `fig.dpi` attribute. */
  datatype MplFigure = MplFigure(id: nat, dpi: real)

  /** A `PIL.Image.Image`. */
  datatype PilImage = PilImage(id: nat)

  /** A `numpy.ndarray`; `ndim` is its number of dimensions. */
  datatype NdArray = NdArray(id: nat, ndim: nat)

  /** A `pandas.DataFrame`. */
  datatype DataFrame = DataFrame(id: nat)

  /** A `dataprep.eda.container.Container`. */
  datatype Container = Container(id: nat)

  /** A positional or keyword argument handed on to a renderer. */
  datatype Arg =
    | NoneArg
    | BoolArg(b: bool)
    | IntArg(i: int)
    | FloatArg(x: real)
    | StrArg(s: string)
    | ObjectArg(id: nat)

  /** The `**kwargs` dictionary of a call. */
  type Kwargs = map<string, Arg>

  /** The files that `open(path, mode="rb").read()` can see, by path. */
  type FileSystem = map<string, Bytes>

  /** The external calls, each a function of its arguments. */
  datatype Renderers = Renderers(
    /** `fig.to_html(*args, **kwargs)` */
    plotlyToHtml: (PlotlyFigure, seq<Arg>, Kwargs) -> string,
    /** the bytes that `fig.savefig(buffer, *args, **kwargs)` writes */
    mplSavefig: (MplFigure, seq<Arg>, Kwargs) -> Bytes,
    /** the bytes that `image.save(buffer, format="PNG")` writes */
    pilSavePng: PilImage -> Bytes,
    /** `PIL.Image.fromarray(array)` */
    pilFromArray: NdArray -> PilImage,
    /** `frame.to_html(buf=None, **kwargs)` */
    frameToHtml: (DataFrame, Kwargs) -> string,
    /** `DataFrame(array)` */
    frameOfArray: NdArray -> DataFrame,
    /** `container._repr_html_()` */
    containerReprHtml: Container -> string,
    /** `md.reset().convert(text)` */
    markdownConvert: string -> string)
}
