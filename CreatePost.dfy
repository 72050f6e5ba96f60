/**
 * The post creation form (pages/CreatePost.js): toggling accessibility tags,
 * the free-text "Outro" tag, required-field validation, the street line
 * shown for a captured position, and appending the new post to the store.
 */
module CreatePost {
  import opened Wrappers
  import opened Text
  import opened Records
  import opened Storage
  import opened Rating
  import opened PostStore

  const OtherOption: string := "Outro"
  const UnknownLocation: string := "Localização desconhecida"
  const AddressError: string := "Erro ao carregar endereço"

  /** No tag occurs twice. */
  ghost predicate NoDuplicates(tags: seq<string>) {
    forall t :: multiset(tags)[t] <= 1
  }

  /** `tags.filter(item => item !== option)`: every occurrence of `option` goes, the rest stays in order. */
  function RemoveAll(tags: seq<string>, option: string): (r: seq<string>)
    ensures option !in r
    ensures forall t :: t != option ==> multiset(r)[t] == multiset(tags)[t]
    ensures option !in tags ==> r == tags
  {
    if tags == [] then []
    else
      assert tags == [tags[0]] + tags[1..];
      (if tags[0] == option then [] else [tags[0]]) + RemoveAll(tags[1..], option)
  }

  /** `toggleAccessibility`'s new list: a selected option is removed, any other appended at the end. */
  function ToggleTag(tags: seq<string>, option: string): (r: seq<string>)
    ensures option in r <==> option !in tags
    ensures forall t :: t != option ==> multiset(r)[t] == multiset(tags)[t]
    ensures option !in tags ==> r == tags + [option]
  {
    if option in tags then RemoveAll(tags, option) else tags + [option]
  }

  /** Toggling an unselected option twice gives back the list it started from. */
  lemma ToggleTwiceRestores(tags: seq<string>, option: string)
    requires option !in tags
    ensures ToggleTag(ToggleTag(tags, option), option) == tags
  {
    RemoveAllAppend(tags, option);
  }

  /** Removal works element by element, so the kept tags stay in their order. */
  lemma {:induction false} RemoveAllConcat(a: seq<string>, b: seq<string>, option: string)
    ensures RemoveAll(a + b, option) == RemoveAll(a, option) + RemoveAll(b, option)
  {
    if a == [] {
      assert a + b == b;
    } else {
      RemoveAllConcat(a[1..], b, option);
      RemoveAllHead(a, b, option);
    }
  }

  /** The first tag of `a + b` is decided on its own, and the rest of `a` goes on with `b`. */
  lemma RemoveAllHead(a: seq<string>, b: seq<string>, option: string)
    requires a != []
    ensures var head := if a[0] == option then [] else [a[0]];
            && RemoveAll(a, option) == head + RemoveAll(a[1..], option)
            && RemoveAll(a + b, option) == head + RemoveAll(a[1..] + b, option)
            && head + (RemoveAll(a[1..], option) + RemoveAll(b, option))
               == (head + RemoveAll(a[1..], option)) + RemoveAll(b, option)
  {
    assert (a + b)[0] == a[0] && (a + b)[1..] == a[1..] + b;
  }

  lemma {:induction false} RemoveAllAppend(tags: seq<string>, option: string)
    requires option !in tags
    ensures RemoveAll(tags + [option], option) == tags
  {
    if tags != [] {
      assert (tags + [option])[1..] == tags[1..] + [option];
      RemoveAllAppend(tags[1..], option);
    }
  }

  /** Toggling a selected option twice moves it to the end of the list. */
  lemma ToggleTwiceMovesToEnd(tags: seq<string>, option: string)
    requires option in tags
    ensures ToggleTag(ToggleTag(tags, option), option) == RemoveAll(tags, option) + [option]
    ensures NoDuplicates(tags) ==> multiset(ToggleTag(ToggleTag(tags, option), option)) == multiset(tags)
  {
    var kept := RemoveAll(tags, option);
    var r := kept + [option];
    if NoDuplicates(tags) {
      assert multiset(tags)[option] == 1 by {
        assert multiset(tags)[option] > 0;
      }
      forall t
        ensures multiset(r)[t] == multiset(tags)[t]
      {
        assert multiset(r)[t] == multiset(kept)[t] + multiset([option])[t];
      }
      assert multiset(r) == multiset(tags);
    }
  }

  /** Toggling never introduces a duplicate tag. */
  lemma ToggleKeepsNoDuplicates(tags: seq<string>, option: string)
    requires NoDuplicates(tags)
    ensures NoDuplicates(ToggleTag(tags, option))
  {
    var r := ToggleTag(tags, option);
    forall t
      ensures multiset(r)[t] <= 1
    {
      if t == option && option !in tags {
        assert multiset(tags)[option] == 0;
      }
    }
  }

  /** Which required fields are missing (the `errors` state). */
  datatype FieldErrors = FieldErrors(title: bool, description: bool, accessibility: bool) {
    predicate Any() {
      title || description || accessibility
    }
  }

  const NoErrors: FieldErrors := FieldErrors(false, false, false)

  /** The three independent checks of `handleCreatePost`: blank title, blank description, no tag. */
  function ValidateForm(title: string, description: string, tags: seq<string>): (e: FieldErrors)
    ensures e.title <==> AllWhitespace(title)
    ensures e.description <==> AllWhitespace(description)
    ensures e.accessibility <==> tags == []
  {
    BlankIffAllWhitespace(title);
    BlankIffAllWhitespace(description);
    FieldErrors(IsBlank(title), IsBlank(description), |tags| == 0)
  }

  /**
   * `finalAccessibility`: with "Outro" selected, it is dropped and the free
   * text becomes the last tag; otherwise the selection is kept as it is.
   */
  function FinalTags(tags: seq<string>, other: string): (r: seq<string>)
    ensures OtherOption !in tags ==> r == tags
    ensures OtherOption in tags ==>
              && |r| > 0 && r[|r| - 1] == other
              && OtherOption !in r[..|r| - 1]
              && forall t :: t != OtherOption ==> multiset(r[..|r| - 1])[t] == multiset(tags)[t]
  {
    if OtherOption in tags then
      var kept := RemoveAll(tags, OtherOption);
      assert (kept + [other])[..|kept|] == kept;
      kept + [other]
    else tags
  }

  /** One entry of a reverse-geocoding answer; a missing part is `None`. */
  datatype Address = Address(street: Option<string>, city: Option<string>)

  /** The reverse-geocoding answer, or the failure of the lookup. */
  datatype Geocode = Addresses(list: seq<Address>) | LookupFailed

  /**
   * The street line `updateStreetName` shows: "<street>, <city>" from the first
   * address (a missing part as ''), or one of two fixed messages. Only a found
   * address produces a comma, so the three outcomes can be told apart.
   */
  function StreetLine(g: Geocode): (r: string)
    ensures g.LookupFailed? ==> r == AddressError
    ensures g == Addresses([]) ==> r == UnknownLocation
    ensures ',' in r <==> g.Addresses? && g.list != []
    ensures g.Addresses? && g.list != [] ==>
              var street := g.list[0].street.GetOr("");
              var city := g.list[0].city.GetOr("");
              && |r| == |street| + 2 + |city|
              && r[..|street|] == street && r[|street|..|street| + 2] == ", "
              && r[|street| + 2..] == city
  {
    match g
    case LookupFailed => AddressError
    case Addresses(list) =>
      if |list| > 0 then
        var street := list[0].street.GetOr("");
        var city := list[0].city.GetOr("");
        var r := street + ", " + city;
        assert r[|street|] == ',';
        r
      else UnknownLocation
  }

  /**
   * The record `handleCreatePost` builds: the form's fields, the final tags,
   * no votes and 0% / 0%.
   */
  function NewPost(id: string, title: string, description: string, tags: seq<string>, other: string,
                   image: Option<string>, location: Option<Coordinates>,
                   locationName: string, streetName: string, date: int): (p: Post)
    ensures p.positive == 0 && p.negative == 0 && p.ratings == Votes(map[])
    ensures p.tags == FinalTags(tags, other)
    ensures PercentagesAgree(p)
    ensures && p.id == id && p.title == title && p.description == description
            && p.image == image && p.location == location
            && p.locationName == locationName && p.streetName == streetName && p.date == date
  {
    PostRecord(id, title, description, FinalTags(tags, other), image, location,
               locationName, streetName, date, 0, 0, Votes(map[]))
  }

  /**
   * The store after appending `p` to the stored list: an absent or empty value
   * counts as the empty list; a value that does not decode yields `None` and
   * nothing is written.
   */
  function AppendPost(items: map<string, Blob>, p: Post): (r: Option<map<string, Blob>>)
    ensures r.None? <==> DecodePosts(Lookup(items, PostsKey)).None?
    ensures r.Some? ==> r.value.Keys == items.Keys + {PostsKey}
    ensures r.Some? ==> forall k :: k in items && k != PostsKey ==> r.value[k] == items[k]
    ensures r.Some? ==> r.value[PostsKey].PostList?
                        && r.value[PostsKey].posts == DecodePosts(Lookup(items, PostsKey)).value + [ToStored(p)]
  {
    match DecodePosts(Lookup(items, PostsKey))
    case Some(stored) => Some(items[PostsKey := PostList(stored + [ToStored(p)])])
    case None => None
  }

  /** Creating a post and loading the list again shows the old list with the new post last. */
  lemma CreateThenLoad(items: map<string, Blob>, p: Post, previous: seq<Post>)
    requires AppendPost(items, p).Some?
    ensures LoadedPosts(AppendPost(items, p).value, previous) == LoadedPosts(items, previous) + [p]
  {
    LoadAfterAppend(DecodePosts(Lookup(items, PostsKey)).value, p);
  }

  /** What `handleCreatePost` reports. */
  datatype CreateOutcome = Created | MissingFields | SaveFailed

  class CreatePostScreen {
    var title: string
    var locationName: string
    var description: string
    /** The selected accessibility options (the `accessibility` state). */
    var tags: seq<string>
    /** The free text typed for "Outro". */
    var otherTag: string
    var image: Option<string>
    var location: Option<Coordinates>
    var streetName: string
    var errors: FieldErrors

    constructor ()
      ensures title == "" && locationName == "" && description == "" && tags == [] && otherTag == ""
      ensures image == None && location == None && streetName == "" && errors == NoErrors
    {
      title, locationName, description := "", "", "";
      tags, otherTag := [], "";
      image, location, streetName := None, None, "";
      errors := NoErrors;
    }

    /**
     * `toggleAccessibility`: toggles the option; deselecting "Outro" clears
     * its free text; a non-empty selection clears the tag error.
     */
    method ToggleAccessibility(option: string)
      modifies this`tags, this`otherTag, this`errors
      ensures tags == ToggleTag(old(tags), option)
      ensures otherTag == if option == OtherOption && OtherOption in old(tags) then "" else old(otherTag)
      ensures errors == if tags != [] && old(errors).accessibility then old(errors).(accessibility := false) else old(errors)
    {
      var newList := ToggleTag(tags, option);
      if option == OtherOption && option in tags {
        otherTag := "";
      }
      tags := newList;
      if |newList| > 0 && errors.accessibility {
        errors := errors.(accessibility := false);
      }
    }

    /** `updateStreetName`, given the reverse-geocoding answer. */
    method UpdateStreetName(answer: Geocode)
      modifies this`streetName
      ensures streetName == StreetLine(answer)
    {
      streetName := StreetLine(answer);
    }

    /**
     * `handleCreatePost`, with the clock's id and timestamp as parameters:
     * a missing field sets the error flags and touches no storage; otherwise
     * the new post is appended under `'posts'`, unless the stored value does
     * not decode, in which case nothing is written.
     */
    method HandleCreatePost(storage: Store, id: string, now: int) returns (outcome: CreateOutcome)
      modifies this`errors, storage
      ensures errors == ValidateForm(title, description, tags)
      ensures errors.Any() ==> outcome == MissingFields && storage.items == old(storage.items)
      ensures !errors.Any() ==>
                var p := NewPost(id, title, description, tags, otherTag, image, location, locationName, streetName, now);
                match AppendPost(old(storage.items), p)
                case Some(written) => outcome == Created && storage.items == written
                case None => outcome == SaveFailed && storage.items == old(storage.items)
    {
      var titleError := IsBlank(title);
      var descriptionError := IsBlank(description);
      var accessibilityError := |tags| == 0;
      if titleError || descriptionError || accessibilityError {
        errors := FieldErrors(titleError, descriptionError, accessibilityError);
        outcome := MissingFields;
        return;
      }
      errors := NoErrors;
      var stored := DecodePosts(Lookup(storage.items, PostsKey));
      if stored.None? {
        outcome := SaveFailed;
        return;
      }
      var p := NewPost(id, title, description, tags, otherTag, image, location, locationName, streetName, now);
      storage.SetItem(PostsKey, PostList(stored.value + [ToStored(p)]));
      outcome := Created;
    }
  }
}
