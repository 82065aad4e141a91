/** The onboarding genre picker (client/src/components/GenreSelection.js):
    the selection list that a click toggles, and the submit and skip buttons
    that post it. The request's outcome and the confirm dialog's answer are
    inputs. */
module GenreSelection {
  import opened Common

  /** `prev.filter(g => g !== genre)`. */
  function Without(prev: seq<string>, genre: string): (r: seq<string>)
    ensures genre !in r
    ensures |r| <= |prev|
    ensures forall g :: g in r <==> g in prev && g != genre
    ensures forall g :: g != genre ==> multiset(r)[g] == multiset(prev)[g]
  {
    if prev == [] then []
    else
      var rest := Without(prev[..|prev| - 1], genre);
      var last := prev[|prev| - 1];
      assert prev == prev[..|prev| - 1] + [last];
      if last == genre then rest else rest + [last]
  }

  /** `toggleGenre`'s update: drop every occurrence of a listed genre,
      append one that is not listed. */
  function Toggled(prev: seq<string>, genre: string): (r: seq<string>)
    ensures genre in r <==> genre !in prev
  {
    if genre in prev then Without(prev, genre) else prev + [genre]
  }

  /** Filtering out a genre that is not there changes nothing. */
  lemma {:induction false} WithoutAbsent(prev: seq<string>, genre: string)
    requires genre !in prev
    ensures Without(prev, genre) == prev
  {
    if prev != [] {
      WithoutAbsent(prev[..|prev| - 1], genre);
      assert prev == prev[..|prev| - 1] + [prev[|prev| - 1]];
    }
  }

  /** Toggling an unlisted genre appends it and leaves the rest as it was. */
  lemma ToggleAbsentAppends(prev: seq<string>, genre: string)
    requires genre !in prev
    ensures Toggled(prev, genre) == prev + [genre]
    ensures Toggled(prev, genre)[..|prev|] == prev
  {
  }

  /** Toggling a listed genre removes every occurrence and keeps the other
      genres with their multiplicities. */
  lemma TogglePresentRemoves(prev: seq<string>, genre: string)
    requires genre in prev
    ensures genre !in Toggled(prev, genre)
    ensures |Toggled(prev, genre)| == |prev| - multiset(prev)[genre]
    ensures forall g :: g != genre ==> multiset(Toggled(prev, genre))[g] == multiset(prev)[g]
  {
    var r := Toggled(prev, genre);
    var m := multiset(prev)[genre := 0];
    assert multiset(r) == m by {
      forall g ensures multiset(r)[g] == m[g] {
      }
    }
    assert |multiset(r)| == |multiset(prev)| - multiset(prev)[genre];
  }

  /** Filtering distributes over concatenation, so the kept genres stay in
      their order. */
  lemma {:induction false} WithoutAppend(a: seq<string>, b: seq<string>, genre: string)
    ensures Without(a + b, genre) == Without(a, genre) + Without(b, genre)
    decreases |b|
  {
    if b != [] {
      var bi := b[..|b| - 1];
      WithoutAppend(a, bi, genre);
      assert (a + b)[..|a + b| - 1] == a + bi;
      assert (a + b)[|a + b| - 1] == b[|b| - 1];
    } else {
      assert a + b == a;
    }
  }

  /** Removing a genre listed once leaves the genres before and after it in
      their order. */
  lemma TogglePresentKeepsOrder(before: seq<string>, genre: string, after: seq<string>)
    requires genre !in before && genre !in after
    ensures Toggled(before + [genre] + after, genre) == before + after
  {
    WithoutAppend(before + [genre], after, genre);
    WithoutAppend(before, [genre], genre);
    WithoutAbsent(before, genre);
    WithoutAbsent(after, genre);
    assert Without([genre], genre) == [] by {
      assert [genre][..0] == [];
    }
  }

  /** Toggling an unlisted genre twice restores the list. */
  lemma ToggleTwiceRestores(prev: seq<string>, genre: string)
    requires genre !in prev
    ensures Toggled(Toggled(prev, genre), genre) == prev
  {
    var once := prev + [genre];
    assert once[..|once| - 1] == prev;
    WithoutAbsent(prev, genre);
  }

  /** A click keeps a list without duplicates free of them. */
  lemma {:induction false} ToggleKeepsDistinct(prev: seq<string>, genre: string)
    requires Distinct(prev)
    ensures Distinct(Toggled(prev, genre))
  {
    if genre in prev {
      WithoutKeepsDistinct(prev, genre);
    }
  }

  lemma {:induction false} WithoutKeepsDistinct(prev: seq<string>, genre: string)
    requires Distinct(prev)
    ensures Distinct(Without(prev, genre))
  {
    if prev != [] {
      var init := prev[..|prev| - 1];
      WithoutKeepsDistinct(init, genre);
      var last := prev[|prev| - 1];
      assert last !in init by {
        forall i | 0 <= i < |init| ensures init[i] != last {
          assert prev[i] == init[i];
        }
      }
    }
  }

  /** The post the buttons send: the genre list for the preferences route. */
  datatype Post = Post(genres: seq<string>)

  class Picker {
    var selectedGenres: seq<string>
    var saving: bool

    constructor()
      ensures selectedGenres == [] && !saving
    {
      selectedGenres := [];
      saving := false;
    }

    /** `toggleGenre(genre)`. */
    method ToggleGenre(genre: string)
      modifies this
      ensures selectedGenres == Toggled(old(selectedGenres), genre)
      ensures saving == old(saving)
    {
      selectedGenres := Toggled(selectedGenres, genre);
    }

    /** `handleSubmit`: with nothing selected it only alerts; otherwise it
        marks saving and posts the selection, clearing `saving` again only
        when the post fails (on success the page moves on). */
    method Submit(postSucceeds: bool) returns (sent: Option<Post>, completed: bool)
      modifies this
      ensures sent.None? <==> old(selectedGenres) == []
      ensures sent.Some? ==> sent.value.genres == old(selectedGenres)
      ensures completed <==> sent.Some? && postSucceeds
      ensures selectedGenres == old(selectedGenres)
      ensures sent.None? ==> saving == old(saving)
      ensures sent.Some? ==> saving == postSucceeds
    {
      if selectedGenres == [] {
        return None, false;
      }
      saving := true;
      sent := Some(Post(selectedGenres));
      if postSucceeds {
        completed := true;
      } else {
        completed := false;
        saving := false;
      }
    }

    /** `handleSkip`: unless the dialog is confirmed nothing happens; then an
        empty genre list is posted, whatever is selected. */
    method Skip(confirmed: bool, postSucceeds: bool) returns (sent: Option<Post>, completed: bool)
      modifies this
      ensures sent.None? <==> !confirmed
      ensures sent.Some? ==> sent.value.genres == []
      ensures completed <==> confirmed && postSucceeds
      ensures selectedGenres == old(selectedGenres)
      ensures !confirmed ==> saving == old(saving)
      ensures confirmed ==> saving == postSucceeds
    {
      if !confirmed {
        return None, false;
      }
      saving := true;
      sent := Some(Post([]));
      if postSucceeds {
        completed := true;
      } else {
        completed := false;
        saving := false;
      }
    }
  }
}
