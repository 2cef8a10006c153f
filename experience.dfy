/** The experience section (`section-experience`): an accordion of job
    entries in which at most one entry, named by its key, is open. */
module Experience {
  import opened Common

  /** The entry shown open when the section first renders. */
  const InitialKey: string := "ccaa"

  /** `toggle`: the open key after toggling `key` — closed when `key` was
      the open one, otherwise `key` becomes the only open entry. */
  function Toggled(open: Option<string>, key: string): (r: Option<string>)
    ensures r == Some(key) <==> open != Some(key)
    ensures r != Some(key) ==> r == None
  {
    if open == Some(key) then None else Some(key)
  }

  /** Toggling an entry never leaves another entry open. */
  lemma ToggleClosesOthers(open: Option<string>, key: string, other: string)
    requires other != key
    ensures Toggled(open, key) != Some(other)
  {
  }

  /** Toggling the same entry twice gives back its open state, and closes
      whatever other entry was open before. */
  lemma ToggleTwice(open: Option<string>, key: string)
    ensures (Toggled(Toggled(open, key), key) == Some(key)) <==> (open == Some(key))
    ensures open == None || open == Some(key) ==> Toggled(Toggled(open, key), key) == open
  {
  }

  /** The keys that toggle an entry from the keyboard. */
  predicate IsToggleKey(k: string) {
    k == "Enter" || k == " "
  }

  class SectionExperience {
    var openKey: Option<string>

    constructor ()
      ensures openKey == Some(InitialKey)
    {
      openKey := Some(InitialKey);
    }

    method Toggle(key: string)
      modifies this`openKey
      ensures openKey == Toggled(old(openKey), key)
      ensures openKey == Some(key) <==> old(openKey) != Some(key)
    {
      openKey := if openKey == Some(key) then None else Some(key);
    }

    /** `isOpen`. */
    method IsOpen(key: string) returns (b: bool)
      ensures b <==> openKey == Some(key)
    {
      b := openKey == Some(key);
    }

    /** `onKeyToggle`: Enter and Space toggle the entry and suppress the
        key's default action; any other key does nothing. */
    method OnKeyToggle(evtKey: string, key: string) returns (prevented: bool)
      modifies this`openKey
      ensures prevented <==> IsToggleKey(evtKey)
      ensures prevented ==> openKey == Toggled(old(openKey), key)
      ensures !prevented ==> openKey == old(openKey)
    {
      prevented := false;
      if evtKey == "Enter" || evtKey == " " {
        prevented := true;
        Toggle(key);
      }
    }
  }
}
