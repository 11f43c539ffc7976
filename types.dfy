/** Record and configuration shapes shared by the search page and the build
    script (src/types.d.ts). They carry no behaviour of their own. */
module Types {

  /** A value that may be absent: JavaScript's `undefined`/`null`, Python's `None`. */
  datatype Option<+T> = None | Some(value: T)
  {
    function GetOr(default: T): (r: T)
      ensures Some? ==> r == value
      ensures None? ==> r == default
    {
      match this
      case Some(v) => v
      case None => default
    }
  }

  datatype Declaration = Declaration(name: string, url: string)

  /** One configuration option, as the page receives it (`Option` in
      src/types.d.ts). `defaultValue` and `exampleValue` are the optional
      `default` and `example` fields; `optionType` is `type`. */
  datatype OptionRecord = OptionRecord(
    declarations: seq<Declaration>,
    defaultValue: Option<string>,
    description: string,
    descriptionHTML: string,
    exampleValue: Option<string>,
    readOnly: bool,
    title: string,
    optionType: string)

  datatype NavbarLink = NavbarLink(name: string, href: string)

  /** One dataset of the catalogue: its display title and where its options live. */
  datatype Module = Module(title: string, path: string)

  /** The catalogue: dataset key to dataset, and the key used when none is chosen. */
  datatype Meta = Meta(modules: map<string, Module>, defaultSet: string, links: seq<NavbarLink>)
}
