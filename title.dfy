/** The page title service: the browser tab shows the application name,
    optionally followed by where the user is. */
module Title {
  import opened Wrappers

  const BASE: string := "spinevis"
  const SEPARATOR: string := " | "

  /** The title `set(where)` produces; `where` is the argument's string form,
      None for `undefined`. */
  function TitleFor(where: Option<string>): string
  {
    if where.None? then BASE else BASE + SEPARATOR + where.value
  }

  /** Recovers the argument from a title produced by `set`. */
  function ParseTitle(title: string): Option<string>
  {
    if |title| >= |BASE + SEPARATOR| && title[..|BASE + SEPARATOR|] == BASE + SEPARATOR
    then Some(title[|BASE + SEPARATOR|..])
    else None
  }

  /** Every title starts with the application name. */
  lemma TitleStartsWithBase(where: Option<string>)
    ensures |TitleFor(where)| >= |BASE| && TitleFor(where)[..|BASE|] == BASE
  {
  }

  /** No argument gives exactly the application name; an argument gives the
      name, the separator and the argument. */
  lemma TitleShape(where: Option<string>)
    ensures where.None? ==> TitleFor(where) == "spinevis"
    ensures where.Some? ==> TitleFor(where) == "spinevis | " + where.value
  {
  }

  /** The title determines the argument it was set with. */
  lemma TitleRoundTrip(where: Option<string>)
    ensures ParseTitle(TitleFor(where)) == where
  {
  }

  /** Distinct arguments give distinct titles. */
  lemma TitleInjective(a: Option<string>, b: Option<string>)
    requires TitleFor(a) == TitleFor(b)
    ensures a == b
  {
    TitleRoundTrip(a);
    TitleRoundTrip(b);
  }

  /** The browser document whose title is shown in the tab. */
  class BrowserDocument {
    var title: string

    constructor (title: string)
      ensures this.title == title
    {
      this.title := title;
    }
  }

  class TitleFactory {
    const document: BrowserDocument

    constructor (document: BrowserDocument)
      ensures this.document == document
    {
      this.document := document;
    }

    /** Overwrites the document title; the new title depends only on `where`,
        so repeating a call changes nothing. */
    method Set(where: Option<string>)
      modifies document
      ensures document.title == TitleFor(where)
    {
      var title := BASE;
      if where.Some? {
        title := title + SEPARATOR + where.value;
      }
      document.title := title;
    }

    /** Same effect as `Set` without an argument. */
    method UseBase()
      modifies document
      ensures document.title == TitleFor(None) == BASE
    {
      Set(None);
    }
  }
}
