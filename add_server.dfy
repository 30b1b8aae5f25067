/**
 * The form that adds a custom DNS server: the checks run on submit, the record built from the
 * fields, and the reset when the form closes. The generated identifier and the clock reading
 * that go into the record are parameters.
 */
module AddServer {
  import opened Wrappers
  import opened Text
  import opened Interfaces
  import opened DnsValidators

  const NameRequired: string := "Server name is required"
  const PrimaryRequired: string := "Primary DNS is required"
  const InvalidPrimary: string := "Invalid primary DNS address"
  const InvalidSecondary: string := "Invalid secondary DNS address"

  /** The errors the submit checks collect, in the order they are pushed. */
  function FormErrors(name: string, primary: string, secondary: string): seq<string> {
    (if Trim(name) == "" then [NameRequired] else [])
    + (if Trim(primary) == "" then [PrimaryRequired] else if !IsValidDnsAddress(primary) then [InvalidPrimary] else [])
    + (if secondary != "" && !IsValidDnsAddress(secondary) then [InvalidSecondary] else [])
  }

  /**
   * Each check contributes its error exactly when it fails, the two primary errors exclude
   * each other, and the form passes exactly when the name is not blank, the primary is valid
   * and the secondary is empty or valid.
   */
  lemma FormErrorsMeaning(name: string, primary: string, secondary: string)
    ensures var e := FormErrors(name, primary, secondary);
      && (NameRequired in e <==> Trim(name) == "")
      && (PrimaryRequired in e <==> Trim(primary) == "")
      && (InvalidPrimary in e <==> Trim(primary) != "" && !IsValidDnsAddress(primary))
      && !(PrimaryRequired in e && InvalidPrimary in e)
      && (InvalidSecondary in e <==> secondary != "" && !IsValidDnsAddress(secondary))
      && (e == [] <==> Trim(name) != "" && IsValidDnsAddress(primary) && (secondary == "" || IsValidDnsAddress(secondary)))
  {
  }

  /** The record handed on when the form passes; `id` is the generated identifier, `now` the clock. */
  function NewServer(name: string, primary: string, secondary: string, id: string, now: int): (s: DnsServer)
    ensures StartsWith(s.key, "custom-") && s.name == Trim(name)
    ensures s.servers == if secondary != "" then [Trim(primary), Trim(secondary)] else [Trim(primary)]
    ensures s.rating == 0 && s.tags == ["custom"] && s.isCustom && !s.isDefault && s.createdAt == Some(now)
  {
    var servers := if secondary != "" then [Trim(primary), Trim(secondary)] else [Trim(primary)];
    DnsServer("custom-" + id, Trim(name), servers, 0, ["custom"], false, true, Some(now))
  }

  /** A valid address stays valid once trimmed. */
  lemma TrimKeepsValid(address: string)
    requires IsValidDnsAddress(address)
    ensures IsValidDnsAddress(Trim(address))
  {
    TrimOfTrimmed(Trim(address));
  }

  /** A record built from a form that passed holds only valid addresses, one or two of them. */
  lemma NewServerAddressesValid(name: string, primary: string, secondary: string, id: string, now: int)
    requires FormErrors(name, primary, secondary) == []
    ensures var s := NewServer(name, primary, secondary, id, now);
      && 1 <= |s.servers| <= 2
      && forall i :: 0 <= i < |s.servers| ==> IsValidDnsAddress(s.servers[i])
  {
    FormErrorsMeaning(name, primary, secondary);
    TrimKeepsValid(primary);
    if secondary != "" {
      TrimKeepsValid(secondary);
    }
  }

  class AddServerForm {
    var name: string
    var primary: string
    var secondary: string
    var errors: seq<string>
    /** How often the form asked its owner to close it. */
    ghost var closeRequests: nat

    constructor()
      ensures name == "" && primary == "" && secondary == "" && errors == [] && closeRequests == 0
    {
      name, primary, secondary, errors := "", "", "", [];
      closeRequests := 0;
    }

    /** `handleClose`: every field reset, then the owner asked to close the form. */
    method Close()
      modifies this
      ensures name == "" && primary == "" && secondary == "" && errors == []
      ensures closeRequests == old(closeRequests) + 1
    {
      name, primary, secondary, errors := "", "", "", [];
      closeRequests := closeRequests + 1;
    }

    /**
     * `handleSubmit`: with errors, they are shown and nothing is added; without, the new record
     * is handed on (`added`) and the form closes.
     */
    method Submit(id: string, now: int) returns (added: Option<DnsServer>)
      modifies this
      ensures var e := FormErrors(old(name), old(primary), old(secondary));
        && (added.Some? <==> e == [])
        && (e != [] ==> errors == e && name == old(name) && primary == old(primary) && secondary == old(secondary)
                        && closeRequests == old(closeRequests))
        && (e == [] ==> added == Some(NewServer(old(name), old(primary), old(secondary), id, now))
                        && name == "" && primary == "" && secondary == "" && errors == []
                        && closeRequests == old(closeRequests) + 1)
    {
      var newErrors: seq<string> := [];
      if Trim(name) == "" {
        newErrors := newErrors + [NameRequired];
      }
      if Trim(primary) == "" {
        newErrors := newErrors + [PrimaryRequired];
      } else if !IsValidDnsAddress(primary) {
        newErrors := newErrors + [InvalidPrimary];
      }
      if secondary != "" && !IsValidDnsAddress(secondary) {
        newErrors := newErrors + [InvalidSecondary];
      }
      if |newErrors| > 0 {
        errors := newErrors;
        return None;
      }
      added := Some(NewServer(name, primary, secondary, id, now));
      Close();
    }
  }
}
