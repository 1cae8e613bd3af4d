/** The session controller: which screen shows, the chosen age group, the story
    on screen, and the saved storybooks, kept in step with the browser's
    key-value store. */
module App {
  import opened Results
  import opened Types
  import StoryViewer

  datatype View = AgeSelectorView | CreatorView | ViewerView | MyStorybooksView

  /** A value as kept in the key-value store. A key holding a value of the
      wrong shape reads as absent. */
  datatype Stored = StoredAgeGroup(group: AgeGroup) | StoredStories(stories: seq<Story>)

  const AGE_GROUP_KEY: string := "ageGroup"
  const STORYBOOKS_KEY: string := "storybooks"

  /** The persisted age group, if any. */
  function LoadAgeGroup(store: map<string, Stored>): Option<AgeGroup>
  {
    if AGE_GROUP_KEY in store && store[AGE_GROUP_KEY].StoredAgeGroup? then Some(store[AGE_GROUP_KEY].group) else None
  }

  /** The persisted storybooks, or none. */
  function LoadStorybooks(store: map<string, Stored>): seq<Story>
  {
    if STORYBOOKS_KEY in store && store[STORYBOOKS_KEY].StoredStories? then store[STORYBOOKS_KEY].stories else []
  }

  /** What is saved under one key reads back, and the other key is untouched. */
  lemma StoreRoundTrip(store: map<string, Stored>, g: AgeGroup, books: seq<Story>)
    ensures LoadAgeGroup(store[AGE_GROUP_KEY := StoredAgeGroup(g)]) == Some(g)
    ensures LoadStorybooks(store[AGE_GROUP_KEY := StoredAgeGroup(g)]) == LoadStorybooks(store)
    ensures LoadStorybooks(store[STORYBOOKS_KEY := StoredStories(books)]) == books
    ensures LoadAgeGroup(store[STORYBOOKS_KEY := StoredStories(books)]) == LoadAgeGroup(store)
  {
  }

  /** `books.filter(s => s.id !== id)`. */
  function WithoutId(books: seq<Story>, id: string): (kept: seq<Story>)
    ensures |kept| <= |books|
    ensures forall s :: s in kept <==> s in books && s.id != id
  {
    if books == [] then []
    else
      var rest := WithoutId(books[1..], id);
      assert forall s :: s in books <==> s == books[0] || s in books[1..];
      if books[0].id == id then rest else [books[0]] + rest
  }

  /** The saved collection after saving `story`: it goes first, and any older
      entry with its id is dropped. */
  function Upsert(books: seq<Story>, story: Story): seq<Story>
  {
    [story] + WithoutId(books, story.id)
  }

  /** `books.some(s => s.id === id)`. */
  predicate IsSaved(books: seq<Story>, id: string)
  {
    exists k :: 0 <= k < |books| && books[k].id == id
  }

  /** How many entries carry this id. */
  function CountId(books: seq<Story>, id: string): nat
  {
    if books == [] then 0 else (if books[0].id == id then 1 else 0) + CountId(books[1..], id)
  }

  /** No two entries share an id. */
  predicate DistinctIds(books: seq<Story>)
  {
    forall i, j :: 0 <= i < j < |books| ==> books[i].id != books[j].id
  }

  /** An id is saved exactly when it is counted. */
  lemma {:induction false} CountIdPositive(books: seq<Story>, id: string)
    ensures CountId(books, id) > 0 <==> IsSaved(books, id)
  {
    if books != [] {
      CountIdPositive(books[1..], id);
      if IsSaved(books[1..], id) {
        var k :| 0 <= k < |books[1..]| && books[1..][k].id == id;
        assert books[k + 1].id == id;
      }
      if IsSaved(books, id) && books[0].id != id {
        var k :| 0 <= k < |books| && books[k].id == id;
        assert books[1..][k - 1].id == id;
      }
    }
  }

  /** The filter keeps its input's order: filtering a concatenation filters
      each part. */
  lemma {:induction false} WithoutIdAppend(xs: seq<Story>, ys: seq<Story>, id: string)
    ensures WithoutId(xs + ys, id) == WithoutId(xs, id) + WithoutId(ys, id)
  {
    if xs == [] {
      assert xs + ys == ys;
    } else {
      assert (xs + ys)[0] == xs[0];
      assert (xs + ys)[1..] == xs[1..] + ys;
      WithoutIdAppend(xs[1..], ys, id);
    }
  }

  /** The filter removes every entry with the id and leaves the count of every
      other id as it was. */
  lemma {:induction false} WithoutIdCounts(books: seq<Story>, id: string, other: string)
    ensures CountId(WithoutId(books, id), id) == 0
    ensures other != id ==> CountId(WithoutId(books, id), other) == CountId(books, other)
  {
    if books != [] {
      WithoutIdCounts(books[1..], id, other);
      var rest := WithoutId(books[1..], id);
      if books[0].id != id {
        assert ([books[0]] + rest)[1..] == rest;
      }
    }
  }

  /** Filtering twice by the same id is filtering once. */
  lemma {:induction false} WithoutIdIdempotent(books: seq<Story>, id: string)
    ensures WithoutId(WithoutId(books, id), id) == WithoutId(books, id)
  {
    if books != [] {
      WithoutIdIdempotent(books[1..], id);
      var rest := WithoutId(books[1..], id);
      if books[0].id != id {
        assert ([books[0]] + rest)[1..] == rest;
      }
    }
  }

  /** Entries without repeated ids keep that property under filtering. */
  lemma {:induction false} WithoutIdKeepsDistinct(books: seq<Story>, id: string)
    requires DistinctIds(books)
    ensures DistinctIds(WithoutId(books, id))
  {
    if books != [] {
      assert DistinctIds(books[1..]) by {
        forall i, j | 0 <= i < j < |books[1..]| ensures books[1..][i].id != books[1..][j].id {
          assert books[1..][i] == books[i + 1] && books[1..][j] == books[j + 1];
        }
      }
      WithoutIdKeepsDistinct(books[1..], id);
      var rest := WithoutId(books[1..], id);
      if books[0].id != id {
        var kept := [books[0]] + rest;
        forall i, j | 0 <= i < j < |kept| ensures kept[i].id != kept[j].id {
          if i == 0 {
            assert kept[j] in rest;
            var k :| 0 <= k < |books[1..]| && books[1..][k] == kept[j];
            assert books[k + 1] == kept[j];
          } else {
            assert kept[i] == rest[i - 1] && kept[j] == rest[j - 1];
          }
        }
      }
    }
  }

  /** Saving puts the story first; afterwards exactly one entry has its id,
      every other id is counted as often as before, the entries are the story
      and the old entries with other ids, and an id is saved exactly when it is
      the story's or was saved before. */
  lemma UpsertSpec(books: seq<Story>, story: Story)
    ensures Upsert(books, story)[0] == story
    ensures CountId(Upsert(books, story), story.id) == 1
    ensures forall id :: id != story.id ==> CountId(Upsert(books, story), id) == CountId(books, id)
    ensures forall s :: s in Upsert(books, story) <==> s == story || (s in books && s.id != story.id)
    ensures forall id :: IsSaved(Upsert(books, story), id) <==> id == story.id || IsSaved(books, id)
  {
    var result := Upsert(books, story);
    assert result[1..] == WithoutId(books, story.id);
    WithoutIdCounts(books, story.id, story.id);
    forall id | id != story.id
      ensures CountId(result, id) == CountId(books, id)
    {
      WithoutIdCounts(books, story.id, id);
    }
    forall id
      ensures IsSaved(result, id) <==> id == story.id || IsSaved(books, id)
    {
      CountIdPositive(result, id);
      CountIdPositive(books, id);
      WithoutIdCounts(books, story.id, id);
    }
  }

  /** Saving keeps the ids distinct when they were. */
  lemma UpsertKeepsDistinct(books: seq<Story>, story: Story)
    requires DistinctIds(books)
    ensures DistinctIds(Upsert(books, story))
  {
    WithoutIdKeepsDistinct(books, story.id);
    var rest := WithoutId(books, story.id);
    var result := Upsert(books, story);
    forall i, j | 0 <= i < j < |result| ensures result[i].id != result[j].id {
      if i == 0 {
        assert result[j] == rest[j - 1] && rest[j - 1] in rest;
      } else {
        assert result[i] == rest[i - 1] && result[j] == rest[j - 1];
      }
    }
  }

  /** Saving a story with the same id again replaces the earlier save: only the
      last save counts, and saving the same story twice changes nothing. */
  lemma UpsertOverwrites(books: seq<Story>, first: Story, second: Story)
    requires first.id == second.id
    ensures Upsert(Upsert(books, first), second) == Upsert(books, second)
  {
    var id := second.id;
    assert Upsert(books, first) == [first] + WithoutId(books, id);
    WithoutIdAppend([first], WithoutId(books, id), id);
    assert WithoutId([first], id) == [];
    WithoutIdIdempotent(books, id);
  }

  /** What the app shows. */
  datatype Screen =
    | NoScreen
    | AgeSelectorScreen
    | CreatorScreen(group: AgeGroup)
    | ViewerScreen(story: Story, group: AgeGroup, isReadOnly: bool)
    | LibraryScreen(books: seq<Story>)

  /** The outcome of one render: what is shown, and the view it leaves set. */
  datatype Rendered = Rendered(screen: Screen, nextView: View)

  /** `renderContent`: the creator needs an age group and the viewer a story and
      an age group; without them nothing is shown and the view goes back to age
      selection. A story is read-only exactly when a saved story has its id. */
  function Route(view: View, ageGroup: Option<AgeGroup>, story: Option<Story>, books: seq<Story>): (r: Rendered)
    ensures r.screen == NoScreen <==> r.nextView != view
    ensures r.nextView != view ==>
      && r.nextView == AgeSelectorView
      && ((view == CreatorView && ageGroup.None?) || (view == ViewerView && (story.None? || ageGroup.None?)))
    ensures (view == CreatorView && ageGroup.None?) || (view == ViewerView && (story.None? || ageGroup.None?)) ==>
      r == Rendered(NoScreen, AgeSelectorView)
    ensures view == CreatorView && ageGroup.Some? ==> r.screen == CreatorScreen(ageGroup.value)
    ensures view == ViewerView && story.Some? && ageGroup.Some? ==>
      r.screen.ViewerScreen? && r.screen.story == story.value && r.screen.group == ageGroup.value
      && (r.screen.isReadOnly <==> exists s :: s in books && s.id == story.value.id)
    ensures view == MyStorybooksView ==> r.screen == LibraryScreen(books)
    ensures view == AgeSelectorView ==> r.screen == AgeSelectorScreen
  {
    match view
    case AgeSelectorView => Rendered(AgeSelectorScreen, view)
    case CreatorView =>
      if ageGroup.None? then Rendered(NoScreen, AgeSelectorView)
      else Rendered(CreatorScreen(ageGroup.value), view)
    case ViewerView =>
      if story.None? || ageGroup.None? then Rendered(NoScreen, AgeSelectorView)
      else
        var readOnly := IsSaved(books, story.value.id);
        assert readOnly <==> exists s :: s in books && s.id == story.value.id by {
          if readOnly {
            var k :| 0 <= k < |books| && books[k].id == story.value.id;
            assert books[k] in books;
          }
        }
        Rendered(ViewerScreen(story.value, ageGroup.value, readOnly), view)
    case MyStorybooksView => Rendered(LibraryScreen(books), view)
  }

  /** A redirect settles at once: rendering again from the view it leaves shows
      the age selector and changes nothing more. */
  lemma RedirectSettles(view: View, ageGroup: Option<AgeGroup>, story: Option<Story>, books: seq<Story>)
    ensures var next := Route(view, ageGroup, story, books).nextView;
      && Route(next, ageGroup, story, books).nextView == next
      && Route(next, ageGroup, story, books).screen != NoScreen
  {
  }

  /** Once a story is saved, viewing it is read-only and its choice buttons are
      hidden, even though the story on screen still has its choices. */
  lemma SavedStoryIsReadOnly(books: seq<Story>, story: Story, g: AgeGroup, isContinuing: bool)
    ensures var r := Route(ViewerView, Some(g), Some(story), Upsert(books, StoryViewer.ForSaving(story)));
      && r.screen == ViewerScreen(story, g, true)
      && !StoryViewer.ChoicesPanelShown(r.screen.isReadOnly, story, isContinuing)
  {
    var saved := Upsert(books, StoryViewer.ForSaving(story));
    assert saved[0].id == story.id;
  }

  /** The app's state, with the key-value store it persists to. */
  class AppState {
    var view: View
    var ageGroup: Option<AgeGroup>
    var story: Option<Story>
    var isSettingsOpen: bool
    var storybooks: seq<Story>
    var store: map<string, Stored>

    /** The age group and the storybooks in memory are the persisted ones. */
    predicate Valid()
      reads this
    {
      ageGroup == LoadAgeGroup(store) && storybooks == LoadStorybooks(store)
    }

    /** Start-up: the storybooks are read from the store; then a persisted age
        group is restored and moves the app to the creator, and without one the
        app stays at age selection. */
    constructor(initial: map<string, Stored>)
      ensures Valid() && store == initial
      ensures story == None && !isSettingsOpen
      ensures storybooks == LoadStorybooks(initial)
      ensures ageGroup == LoadAgeGroup(initial)
      ensures view == (if LoadAgeGroup(initial).Some? then CreatorView else AgeSelectorView)
    {
      view := AgeSelectorView;
      ageGroup := None;
      story := None;
      isSettingsOpen := false;
      storybooks := LoadStorybooks(initial);
      store := initial;
      var saved := LoadAgeGroup(initial);
      if saved.Some? {
        ageGroup := saved;
        view := CreatorView;
      }
    }

    /** Choosing an age group, on the age selector or in the settings dialog:
        records and persists it, moves to the creator and closes the dialog. */
    method HandleAgeSelect(g: AgeGroup)
      requires Valid()
      modifies this
      ensures Valid()
      ensures ageGroup == Some(g) && store == old(store)[AGE_GROUP_KEY := StoredAgeGroup(g)]
      ensures view == CreatorView && !isSettingsOpen
      ensures story == old(story) && storybooks == old(storybooks)
    {
      ageGroup := Some(g);
      store := store[AGE_GROUP_KEY := StoredAgeGroup(g)];
      view := CreatorView;
      isSettingsOpen := false;
    }

    /** A generated story goes on screen. */
    method HandleStoryGenerated(generated: Story)
      requires Valid()
      modifies this
      ensures Valid()
      ensures story == Some(generated) && view == ViewerView
      ensures ageGroup == old(ageGroup) && isSettingsOpen == old(isSettingsOpen)
      ensures storybooks == old(storybooks) && store == old(store)
    {
      story := Some(generated);
      view := ViewerView;
    }

    /** New Story: drops the story and returns to the creator. */
    method HandleReset()
      requires Valid()
      modifies this
      ensures Valid()
      ensures story == None && view == CreatorView
      ensures ageGroup == old(ageGroup) && isSettingsOpen == old(isSettingsOpen)
      ensures storybooks == old(storybooks) && store == old(store)
    {
      story := None;
      view := CreatorView;
    }

    /** The logo: drops the story and goes to the creator when an age group is
        persisted, else to age selection. */
    method HandleResetAll()
      requires Valid()
      modifies this
      ensures Valid()
      ensures story == None
      ensures view == (if LoadAgeGroup(store).Some? then CreatorView else AgeSelectorView)
      ensures view == CreatorView <==> ageGroup.Some?
      ensures ageGroup == old(ageGroup) && isSettingsOpen == old(isSettingsOpen)
      ensures storybooks == old(storybooks) && store == old(store)
    {
      story := None;
      if LoadAgeGroup(store).Some? {
        view := CreatorView;
      } else {
        view := AgeSelectorView;
      }
    }

    /** Saving a story: the new collection is the upsert of the old one, and
        that whole collection is persisted. */
    method HandleSaveStory(toSave: Story)
      requires Valid()
      modifies this
      ensures Valid()
      ensures storybooks == Upsert(old(storybooks), toSave)
      ensures store == old(store)[STORYBOOKS_KEY := StoredStories(storybooks)]
      ensures view == old(view) && ageGroup == old(ageGroup) && story == old(story)
      ensures isSettingsOpen == old(isSettingsOpen)
    {
      var updated := Upsert(storybooks, toSave);
      storybooks := updated;
      store := store[STORYBOOKS_KEY := StoredStories(updated)];
    }

    /** Opening a saved story from the library. */
    method ViewStorybook(book: Story)
      requires Valid()
      modifies this
      ensures Valid()
      ensures story == Some(book) && view == ViewerView
      ensures ageGroup == old(ageGroup) && isSettingsOpen == old(isSettingsOpen)
      ensures storybooks == old(storybooks) && store == old(store)
    {
      story := Some(book);
      view := ViewerView;
    }

    /** The header's settings button. */
    method OpenSettings()
      requires Valid()
      modifies this
      ensures Valid() && isSettingsOpen
      ensures view == old(view) && ageGroup == old(ageGroup) && story == old(story)
      ensures storybooks == old(storybooks) && store == old(store)
    {
      isSettingsOpen := true;
    }

    /** The settings dialog's close button. */
    method CloseSettings()
      requires Valid()
      modifies this
      ensures Valid() && !isSettingsOpen
      ensures view == old(view) && ageGroup == old(ageGroup) && story == old(story)
      ensures storybooks == old(storybooks) && store == old(store)
    {
      isSettingsOpen := false;
    }

    /** The header's My Storybooks button. */
    method OpenMyStorybooks()
      requires Valid()
      modifies this
      ensures Valid() && view == MyStorybooksView
      ensures isSettingsOpen == old(isSettingsOpen) && ageGroup == old(ageGroup) && story == old(story)
      ensures storybooks == old(storybooks) && store == old(store)
    {
      view := MyStorybooksView;
    }

    /** One render: shows the screen for the view, redirecting to age selection
        when the view's prerequisites are missing. */
    method Render() returns (screen: Screen)
      requires Valid()
      modifies this
      ensures Valid()
      ensures var r := Route(old(view), ageGroup, story, storybooks);
        screen == r.screen && view == r.nextView
      ensures ageGroup == old(ageGroup) && story == old(story) && isSettingsOpen == old(isSettingsOpen)
      ensures storybooks == old(storybooks) && store == old(store)
    {
      match view
      case AgeSelectorView =>
        screen := AgeSelectorScreen;
      case CreatorView =>
        if ageGroup.None? {
          view := AgeSelectorView;
          screen := NoScreen;
        } else {
          screen := CreatorScreen(ageGroup.value);
        }
      case ViewerView =>
        if story.None? || ageGroup.None? {
          view := AgeSelectorView;
          screen := NoScreen;
        } else {
          screen := ViewerScreen(story.value, ageGroup.value, IsSaved(storybooks, story.value.id));
        }
      case MyStorybooksView =>
        screen := LibraryScreen(storybooks);
    }
  }
}
