/** The consent draft kept by the Customization component of the cookie banner:
    the list of cookie options being edited, whether the customisation panel is
    expanded, the banner visibility the component asks for, and the log of
    preference records it commits. */
module Customization {

  /** One consent category at run time: its id and whether the user allows it. */
  datatype CookieOption = CookieOption(id: string, isEnabled: bool)

  /** The record handed to the storage hook on every commit. */
  datatype CookiePreferences = CookiePreferences(cookieOptions: seq<CookieOption>, isCustomised: bool)

  const AcceptAllLabel: string := "Accept all"
  const AcceptLabel: string := "Accept"

  /** The ids of a list of options, in order. */
  function Ids(opts: seq<CookieOption>): seq<string>
  {
    seq(|opts|, i requires 0 <= i < |opts| => opts[i].id)
  }

  /** True iff at least one option is enabled; false for the empty list. */
  function IsAnOptionEnabled(opts: seq<CookieOption>): (r: bool)
    ensures r <==> exists i :: 0 <= i < |opts| && opts[i].isEnabled
  {
    if opts == [] then false
    else
      assert forall j :: 0 <= j < |opts| - 1 ==> opts[1..][j] == opts[j + 1];
      opts[0].isEnabled || IsAnOptionEnabled(opts[1..])
  }

  /** The label of the accept button, derived from the panel flag and the draft. */
  function AcceptButtonLabel(isActive: bool, opts: seq<CookieOption>): (r: string)
    ensures r == AcceptAllLabel || r == AcceptLabel
    ensures r == AcceptAllLabel <==> !isActive && forall i :: 0 <= i < |opts| ==> !opts[i].isEnabled
  {
    if !isActive && !IsAnOptionEnabled(opts) then AcceptAllLabel else AcceptLabel
  }

  /** Every option with its id kept and its flag overwritten by `enabled`. */
  function SetAllEnabled(opts: seq<CookieOption>, enabled: bool): (r: seq<CookieOption>)
    ensures |r| == |opts|
    ensures forall i :: 0 <= i < |r| ==> r[i].id == opts[i].id && r[i].isEnabled == enabled
  {
    if opts == [] then []
    else [CookieOption(opts[0].id, enabled)] + SetAllEnabled(opts[1..], enabled)
  }

  /** The draft with the option at `key` flipped. */
  function ToggledAt(opts: seq<CookieOption>, key: nat): (r: seq<CookieOption>)
    requires key < |opts|
    ensures |r| == |opts|
    ensures r[key].id == opts[key].id && r[key].isEnabled == !opts[key].isEnabled
    ensures forall j :: 0 <= j < |opts| && j != key ==> r[j] == opts[j]
  {
    opts[key := CookieOption(opts[key].id, !opts[key].isEnabled)]
  }

  /** The options the accept button commits: everything enabled when the panel
      is closed and nothing is enabled yet, the draft unchanged otherwise. */
  function AcceptedOptions(isActive: bool, opts: seq<CookieOption>): (r: seq<CookieOption>)
    ensures Ids(r) == Ids(opts)
    ensures !isActive && !IsAnOptionEnabled(opts) ==> forall i :: 0 <= i < |r| ==> r[i].isEnabled
    ensures isActive || IsAnOptionEnabled(opts) ==> r == opts
  {
    if !isActive && !IsAnOptionEnabled(opts) then SetAllEnabled(opts, true) else opts
  }

  /** Toggling the same option twice gives back the draft. */
  lemma ToggleTwiceRestores(opts: seq<CookieOption>, key: nat)
    requires key < |opts|
    ensures ToggledAt(ToggledAt(opts, key), key) == opts
  {
  }

  /** Flipping one flag never changes the ids or their order. */
  lemma ToggleKeepsIds(opts: seq<CookieOption>, key: nat)
    requires key < |opts|
    ensures Ids(ToggledAt(opts, key)) == Ids(opts)
  {
  }

  /** Overwriting every flag never changes the ids or their order. */
  lemma SetAllKeepsIds(opts: seq<CookieOption>, enabled: bool)
    ensures Ids(SetAllEnabled(opts, enabled)) == Ids(opts)
  {
  }

  /** The label announces what the accept button does: "Accept all" commits
      every option enabled, "Accept" commits the draft as it stands. */
  lemma LabelAgreesWithAccept(isActive: bool, opts: seq<CookieOption>)
    ensures AcceptButtonLabel(isActive, opts) == AcceptAllLabel ==>
      |AcceptedOptions(isActive, opts)| == |opts| &&
      forall i :: 0 <= i < |opts| ==> AcceptedOptions(isActive, opts)[i] == CookieOption(opts[i].id, true)
    ensures AcceptButtonLabel(isActive, opts) == AcceptLabel ==> AcceptedOptions(isActive, opts) == opts
  {
  }

  /** With the panel closed, accepting the options an accept has just
      committed commits the same options again. */
  lemma AcceptAllIdempotent(opts: seq<CookieOption>)
    ensures AcceptedOptions(false, AcceptedOptions(false, opts)) == AcceptedOptions(false, opts)
  {
  }

  /** The state of one mounted Customization component. */
  class Component {
    var options: seq<CookieOption>
    var isActive: bool
    var visible: bool
    var commits: seq<CookiePreferences>
    /** The ids of the options the component was mounted with. */
    ghost var catalog: seq<string>

    /** The draft and every committed record hold exactly the mounted ids, in
        order, and every commit is marked as customised. */
    ghost predicate Valid()
      reads this
    {
      Ids(options) == catalog &&
      forall c :: c in commits ==> Ids(c.cookieOptions) == catalog && c.isCustomised
    }

    /** Mounting: the draft starts as the given options and the panel closed. */
    constructor (cookieOptions: seq<CookieOption>, visible: bool)
      ensures Valid() && catalog == Ids(cookieOptions)
      ensures options == cookieOptions && !isActive && this.visible == visible && commits == []
    {
      options := cookieOptions;
      isActive := false;
      this.visible := visible;
      commits := [];
      catalog := Ids(cookieOptions);
    }

    /** The toggle button of the panel expands or collapses it. */
    method ToggleCustomization()
      requires Valid()
      modifies this
      ensures Valid()
      ensures catalog == old(catalog)
      ensures isActive == !old(isActive)
      ensures options == old(options) && visible == old(visible) && commits == old(commits)
    {
      isActive := !isActive;
    }

    /** Flips the option at `key`; nothing is committed. */
    method Toggle(key: nat)
      requires Valid() && key < |options|
      modifies this
      ensures Valid()
      ensures catalog == old(catalog)
      ensures options == ToggledAt(old(options), key)
      ensures |options| == old(|options|)
      ensures options[key].id == old(options[key].id) && options[key].isEnabled == !old(options[key].isEnabled)
      ensures forall j :: 0 <= j < |options| && j != key ==> options[j] == old(options[j])
      ensures isActive == old(isActive) && visible == old(visible) && commits == old(commits)
    {
      options := options[key := CookieOption(options[key].id, !options[key].isEnabled)];
      ToggleKeepsIds(old(options), key);
    }

    /** Disables every option, closes the panel, hides the banner and commits. */
    method DeclineAll()
      requires Valid()
      modifies this
      ensures Valid()
      ensures catalog == old(catalog)
      ensures |options| == old(|options|)
      ensures forall i :: 0 <= i < |options| ==> options[i].id == old(options[i].id) && !options[i].isEnabled
      ensures !IsAnOptionEnabled(options)
      ensures !isActive && !visible
      ensures commits == old(commits) + [CookiePreferences(options, true)]
    {
      var declined := SetAllEnabled(options, false);
      SetAllKeepsIds(options, false);
      options := declined;
      isActive := false;
      visible := false;
      commits := commits + [CookiePreferences(declined, true)];
    }

    /** Accepts: enables everything when the label read "Accept all", otherwise
        keeps the draft; then closes the panel, hides the banner and commits. */
    method Accept()
      requires Valid()
      modifies this
      ensures Valid()
      ensures catalog == old(catalog)
      ensures options == AcceptedOptions(old(isActive), old(options))
      ensures old(AcceptButtonLabel(isActive, options)) == AcceptAllLabel ==>
        |options| == old(|options|) &&
        forall i :: 0 <= i < |options| ==> options[i].id == old(options[i].id) && options[i].isEnabled
      ensures old(AcceptButtonLabel(isActive, options)) == AcceptLabel ==> options == old(options)
      ensures !isActive && !visible
      ensures commits == old(commits) + [CookiePreferences(options, true)]
    {
      var accepted := options;
      if !isActive && !IsAnOptionEnabled(options) {
        accepted := SetAllEnabled(options, true);
        options := accepted;
      }
      LabelAgreesWithAccept(old(isActive), old(options));
      isActive := false;
      visible := false;
      commits := commits + [CookiePreferences(accepted, true)];
    }
  }

  /** A freshly mounted banner whose four categories are all disabled shows
      "Accept all"; clicking it commits exactly one record, with every
      category enabled and the record marked as customised. */
  method AcceptAllOnFreshBanner() returns (buttonLabel: string, committed: seq<CookiePreferences>)
    ensures buttonLabel == AcceptAllLabel
    ensures committed == [CookiePreferences([CookieOption("essential", true), CookieOption("functional", true),
                                             CookieOption("analytics", true), CookieOption("marketing", true)], true)]
  {
    var banner := new Component([CookieOption("essential", false), CookieOption("functional", false),
                                 CookieOption("analytics", false), CookieOption("marketing", false)], true);
    buttonLabel := AcceptButtonLabel(banner.isActive, banner.options);
    banner.Accept();
    committed := banner.commits;
    assert |banner.options| == 4;
    assert banner.options[0] == CookieOption("essential", true);
    assert banner.options[1] == CookieOption("functional", true);
    assert banner.options[2] == CookieOption("analytics", true);
    assert banner.options[3] == CookieOption("marketing", true);
    assert banner.options == [CookieOption("essential", true), CookieOption("functional", true),
                              CookieOption("analytics", true), CookieOption("marketing", true)];
    assert committed == [] + [CookiePreferences(banner.options, true)];
  }
}
