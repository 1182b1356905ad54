/**
 * What the gallery page shows: its twelve built-in renders, followed by the
 * renders the API lists, each shown with fallbacks for an empty title or
 * subtitle.
 */
module Gallery {
  import opened Db
  import opened Api

  /** A picture of the gallery. */
  datatype Entry = Entry(src: string, title: string, subtitle: string)

  const StaticRenders: seq<Entry> := [
    Entry("/renders/NewLevelSequence2.0021%20copy.jpg", "THE BEGINNING", "Conceptual environments in Unreal Engine 5"),
    Entry("/renders/NewLevelSequence2.002222%20copy.jpg", "ATMOSPHERE", "Volumetric lighting and dense fog studies"),
    Entry("/renders/oceanShot_01.0005%20copy.jpg", "THE DEEP", "Procedural ocean shaders and fluid dynamics"),
    Entry("/renders/oceanShot_01.000513%20copy.jpg", "REFLECTION", "Raytraced reflections and roughness maps"),
    Entry("/renders/oceanShot_01.0005_2%20copy.jpg", "HORIZON", "Infinite ocean systems"),
    Entry("/renders/oceanShot_01.0005_3%20copy.jpg", "STORM", "Dynamic weather systems and chaos"),
    Entry("/renders/oceanShot_01.00089%20copy.jpg", "OBSERVER", "Cinematic camera composition"),
    Entry("/renders/oceanShot_01.000add5%20copy.jpg", "NIGHTFALL", "Low light exposure testing"),
    Entry("/renders/oceanShot_01.000err5%20copy.jpg", "GLITCH", "Post-process material effects"),
    Entry("/renders/oceanShot_01.000re5%20copy.jpg", "SURFACE", "Detailed surface imperfections"),
    Entry("/renders/oceanShot_01.00dsda05%20copy.jpg", "ABYSS", "Final composite render"),
    Entry("/renders/b01.jpg", "ORIENTAL", "Final composite render")
  ]

  /** The outcome of `fetch('/api/renders')` as the page sees it. */
  datatype Fetch = Threw | NotOk | Listed(data: seq<Render>)

  /** What the page receives for a response of the Content API. */
  function FetchOf(resp: Response): Fetch {
    if 200 <= resp.status < 300 && resp.body.Renders? then Listed(resp.body.renders) else NotOk
  }

  /** An API render as a gallery entry. */
  function ToEntry(r: Render): (e: Entry)
    ensures e.src == r.imageUrl
    ensures e.title == (if r.title == "" then "UNTITLED" else r.title)
    ensures e.subtitle == r.subtitle
  {
    Entry(r.imageUrl, if r.title != "" then r.title else "UNTITLED", if r.subtitle != "" then r.subtitle else "")
  }

  /** `data.map(...)` */
  function ToEntries(data: seq<Render>): (entries: seq<Entry>)
    ensures |entries| == |data|
    ensures forall i | 0 <= i < |data| :: entries[i] == ToEntry(data[i])
  {
    if data == [] then [] else [ToEntry(data[0])] + ToEntries(data[1..])
  }

  /** The images the gallery shows once the fetch has settled. */
  function Images(fetch: Fetch): (images: seq<Entry>)
    ensures |images| == |StaticRenders| + (if fetch.Listed? then |fetch.data| else 0)
    ensures images[..|StaticRenders|] == StaticRenders
    ensures fetch.Listed? ==> forall i | 0 <= i < |fetch.data| :: images[|StaticRenders| + i] == ToEntry(fetch.data[i])
  {
    if fetch.Listed? && |fetch.data| > 0 then StaticRenders + ToEntries(fetch.data) else StaticRenders
  }

  lemma StaticCount()
    ensures |StaticRenders| == 12
  {
  }

  /** A failed fetch, a non-ok response or an empty list leave the built-in renders alone. */
  lemma StaticOnly(fetch: Fetch)
    requires !fetch.Listed? || fetch.data == []
    ensures Images(fetch) == StaticRenders
  {
  }

  /** An answered listing is shown after the built-in renders, in the order the API lists it. */
  lemma ShowsListing(resp: Response)
    requires 200 <= resp.status < 300 && resp.body.Renders?
    ensures Images(FetchOf(resp)) == StaticRenders + ToEntries(resp.body.renders)
  {
    if resp.body.renders == [] {
      assert StaticRenders + ToEntries([]) == StaticRenders;
    }
  }

  /** An error answer of the API leaves the built-in renders alone. */
  lemma ErrorShowsStatic(resp: Response)
    requires !(200 <= resp.status < 300)
    ensures Images(FetchOf(resp)) == StaticRenders
  {
  }
}
