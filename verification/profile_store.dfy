/** The front end's profile store: the signed-in user's profile (null until one
    is loaded), a loading flag and the last error. */
module ProfileStore {
  import opened Wrappers
  import opened Values
  import opened DocStore

  /** `{...profile, ...updates}`: spreading a null profile gives no fields. */
  function Overlaid(profile: Option<Document>, updates: Document): (r: Document)
    ensures r.Keys == profile.GetOr(map[]).Keys + updates.Keys
    ensures forall k :: k in updates ==> r[k] == updates[k]
    ensures forall k :: k in profile.GetOr(map[]) && k !in updates ==> r[k] == profile.GetOr(map[])[k]
  {
    Merge(profile.GetOr(map[]), updates)
  }

  /** Two updates in a row amount to one update with the later fields winning. */
  lemma UpdatesCompose(profile: Option<Document>, first: Document, second: Document)
    ensures Overlaid(Some(Overlaid(profile, first)), second) == Overlaid(profile, Overlaid(Some(first), second))
  {
    var p := profile.GetOr(map[]);
    var lhs := Overlaid(Some(Overlaid(profile, first)), second);
    var rhs := Overlaid(profile, Overlaid(Some(first), second));
    assert lhs.Keys == rhs.Keys;
    forall k | k in lhs.Keys
      ensures lhs[k] == rhs[k]
    {
    }
  }

  /** After `clearProfile()` an update leaves exactly the updated fields. */
  lemma UpdateAfterClear(updates: Document)
    ensures Overlaid(None, updates) == updates
  {
    var r := Overlaid(None, updates);
    assert r.Keys == updates.Keys;
  }

  class Store {
    var profile: Option<Document>
    var loading: bool
    var error: Value

    /** The initial state: no profile, not loading, no error. */
    constructor()
      ensures profile == None && !loading && error == Null
    {
      profile := None;
      loading := false;
      error := Null;
    }

    /** `setProfile(profile)` */
    method SetProfile(value: Option<Document>)
      modifies this
      ensures profile == value
      ensures loading == old(loading) && error == old(error)
    {
      profile := value;
    }

    /** `setLoading(loading)` */
    method SetLoading(value: bool)
      modifies this
      ensures loading == value
      ensures profile == old(profile) && error == old(error)
    {
      loading := value;
    }

    /** `setError(error)` */
    method SetError(value: Value)
      modifies this
      ensures error == value
      ensures profile == old(profile) && loading == old(loading)
    {
      error := value;
    }

    /** `updateProfile(updates)`: the updates overlaid on the current profile. */
    method UpdateProfile(updates: Document)
      modifies this
      ensures profile == Some(Overlaid(old(profile), updates))
      ensures loading == old(loading) && error == old(error)
    {
      profile := Some(Overlaid(profile, updates));
    }

    /** `clearProfile()` */
    method ClearProfile()
      modifies this
      ensures profile == None
      ensures loading == old(loading) && error == old(error)
    {
      profile := None;
    }
  }
}
