/** The home page (pages/Home.tsx): the hero title and the notice preview. */
module HomePage {
  import opened Types
  import opened Text

  /** The name shown when the configuration's name is empty. */
  const FallbackName := "Bharat Seva Hospital"

  /** The hero heading: the first word on one line, the rest of the name on the next. */
  datatype HeroTitle = HeroTitle(firstName: string, restOfName: string)

  /** `config?.name || 'Bharat Seva Hospital'` */
  function DisplayName(configName: string): (name: string)
    ensures name != ""
    ensures configName != "" ==> name == configName
    ensures configName == "" ==> name == FallbackName
  {
    if configName == "" then FallbackName else configName
  }

  /** `nameParts[0]` and `nameParts.slice(1).join(' ')` of `(config?.name || fallback).split(' ')`. */
  function HeroTitleOf(configName: string): (t: HeroTitle)
    ensures ' ' !in t.firstName
    ensures ' ' in DisplayName(configName) ==> t.firstName + " " + t.restOfName == DisplayName(configName)
    ensures ' ' !in DisplayName(configName) ==> t == HeroTitle(DisplayName(configName), "")
  {
    var name := DisplayName(configName);
    var parts := Split(name, ' ');
    JoinSplit(name, ' ');
    CountPositive(name, ' ');
    HeroTitle(parts[0], Join(parts[1..], ' '))
  }

  /** An empty configured name gives "Bharat" / "Seva Hospital". */
  lemma FallbackTitle()
    ensures HeroTitleOf("") == HeroTitle("Bharat", "Seva Hospital")
  {
    var parts := ["Bharat", "Seva", "Hospital"];
    assert ' ' !in parts[0] && ' ' !in parts[1] && ' ' !in parts[2];
    assert Join(parts[2..], ' ') == "Hospital";
    assert Join(parts[1..], ' ') == "Seva Hospital";
    assert Join(parts, ' ') == FallbackName;
    SplitJoin(parts, ' ');
  }

  /** `notices.slice(0, 3)`: the first three notices, or all of them when there are fewer. */
  function LatestNotices(notices: seq<Notice>): (r: seq<Notice>)
    ensures |r| == (if |notices| < 3 then |notices| else 3)
    ensures r == notices[..|r|]
  {
    if |notices| < 3 then notices else notices[..3]
  }

  /** The notice section is rendered exactly when its preview is not empty. */
  function ShowsNotices(notices: seq<Notice>): (shown: bool)
    ensures shown <==> LatestNotices(notices) != []
  {
    |notices| > 0
  }
}
