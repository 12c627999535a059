/** The share-method table of `Sharer`: the fixed settings keys, the
    methods built from them, lookups and filters over the table, and the
    per-type grouping shown to the user. Windows, buttons and click
    listeners are outside the model. */
module Sharer {
  import opened Options

  /** A property value of a share method: a string, a function (by
      identity) or `null`. */
  datatype Attr = Str(s: string) | Fun(id: nat) | Null

  /** A setting passed to Sharer.ShareMethod: `null`, or an object whose
      own properties are copied over the defaults. */
  datatype Setting = NullSetting | Options(props: map<string, Attr>)

  /** A share method object, as its property map. */
  datatype ShareMethod = ShareMethod(props: map<string, Attr>)

  /** `method[attr]`, or `None` (undefined) when the method lacks it. */
  function AttrOf(m: ShareMethod, attr: string): Option<Attr> {
    if attr in m.props then Some(m.props[attr]) else None
  }

  /** Sharer.ShareMethod(options): type 'visual' and a new empty `share`
      function (identity `share`), overwritten by the options' own
      properties; `Object.assign` skips a `null` source. */
  function ShareMethodOf(options: Setting, share: nat): (m: ShareMethod)
    ensures options.NullSetting? ==> AttrOf(m, "type") == Some(Str("visual"))
    ensures options.Options? ==>
              forall key :: key in options.props ==> AttrOf(m, key) == Some(options.props[key])
    ensures options.Options? && "type" !in options.props ==> AttrOf(m, "type") == Some(Str("visual"))
  {
    var defaults := map["type" := Str("visual"), "share" := Fun(share)];
    match options
    case NullSetting => ShareMethod(defaults)
    case Options(props) => ShareMethod(defaults + props)
  }

  /** `m` is what Sharer.ShareMethod builds from `setting`, whatever
      identity its fresh `share` function got. */
  ghost predicate BuiltFrom(m: ShareMethod, setting: Setting) {
    exists share :: m == ShareMethodOf(setting, share)
  }

  /** The twelve settings keys of `sharer_settings`, all `null`. */
  const DefaultSettings: map<string, Setting> :=
    map["barcode" := NullSetting, "ar_code" := NullSetting, "url_recognizer" := NullSetting,
        "data_recognizer" := NullSetting, "audio_data" := NullSetting, "nfc" := NullSetting,
        "bluetooth" := NullSetting, "wifi" := NullSetting, "facebook" := NullSetting,
        "skype" := NullSetting, "line" := NullSetting, "infrared" := NullSetting]

  /** The entries of `methods` whose `attr` is strictly equal to `value`. */
  function Select(methods: map<string, ShareMethod>, attr: string, value: Option<Attr>): map<string, ShareMethod> {
    map key | key in methods && AttrOf(methods[key], attr) == value :: methods[key]
  }

  /** Sharer.getTypes: the five type names. */
  const TypeNames: set<string> := {"visual", "audio", "wireless", "account", "other"}

  /** Sharer.GroupedDataItem: a named, described button entry. */
  datatype GroupedDataItem = GroupedDataItem(name: string, description: string, imageSrc: string,
                                             image: Option<nat>, handle: Option<nat>)

  /** Sharer.GroupedDataItem() with no options. */
  const DefaultItem := GroupedDataItem("", "", "", None, None)

  /** Sharer(settings): the object built by the factory. The settings it is
      given are not read; `sharer_settings` is always the twelve null keys. */
  class Sharer {
    const sharerSettings: map<string, Setting>
    var shareMethods: map<string, ShareMethod>

    constructor ()
      ensures sharerSettings == DefaultSettings
      ensures shareMethods.Keys == DefaultSettings.Keys
      ensures forall key :: key in shareMethods ==> BuiltFrom(shareMethods[key], NullSetting)
    {
      sharerSettings := DefaultSettings;
      shareMethods := map[];
      new;
      SetupShareMethods();
    }

    /** Sharer.setupShareMethods / setupShareMethod: one method per settings
        key, built from its setting; other entries stay. The `share` ids are
        counted from 0 in each call; closure identity is not modelled. */
    method SetupShareMethods()
      modifies this`shareMethods
      ensures shareMethods.Keys == old(shareMethods).Keys + sharerSettings.Keys
      ensures forall key :: key in sharerSettings ==> BuiltFrom(shareMethods[key], sharerSettings[key])
      ensures forall key :: key in old(shareMethods) && key !in sharerSettings ==>
                shareMethods[key] == old(shareMethods)[key]
    {
      var keys := sharerSettings.Keys;
      var share := 0;
      while keys != {}
        invariant keys <= sharerSettings.Keys
        invariant shareMethods.Keys == old(shareMethods).Keys + (sharerSettings.Keys - keys)
        invariant forall key :: key in sharerSettings && key !in keys ==>
                    BuiltFrom(shareMethods[key], sharerSettings[key])
        invariant forall key :: key in old(shareMethods) && key !in sharerSettings ==>
                    shareMethods[key] == old(shareMethods)[key]
        decreases keys
      {
        var key :| key in keys;
        shareMethods := shareMethods[key := ShareMethodOf(sharerSettings[key], share)];
        share := share + 1;
        keys := keys - {key};
      }
    }

    /** Sharer.getShareMethod: the method stored under `key`, if any. */
    function GetShareMethod(key: string): (r: Option<ShareMethod>)
      reads this
      ensures r.Some? <==> key in shareMethods
      ensures r.Some? ==> r.value == shareMethods[key]
    {
      if key in shareMethods then Some(shareMethods[key]) else None
    }

    /** Sharer.getShareMethodsByAttr: a new object holding the entries
        whose `attr` is `value`. */
    method GetShareMethodsByAttr(attr: string, value: Option<Attr>) returns (r: map<string, ShareMethod>)
      ensures r == Select(shareMethods, attr, value)
    {
      r := map[];
      var keys := shareMethods.Keys;
      while keys != {}
        invariant keys <= shareMethods.Keys
        invariant r == Select(shareMethods - keys, attr, value)
        decreases keys
      {
        var key :| key in keys;
        if AttrOf(shareMethods[key], attr) == value {
          r := r[key := shareMethods[key]];
        }
        keys := keys - {key};
        assert Select(shareMethods - keys, attr, value) == r;
      }
      assert shareMethods - keys == shareMethods;
    }

    /** Sharer.getShareMethodsByType. */
    method GetShareMethodsByType(t: string) returns (r: map<string, ShareMethod>)
      ensures r == Select(shareMethods, "type", Some(Str(t)))
    {
      r := GetShareMethodsByAttr("type", Some(Str(t)));
    }
  }

  /** A selection is the sub-map of exactly the matching entries. */
  lemma SelectIsMatchingSubMap(methods: map<string, ShareMethod>, attr: string, value: Option<Attr>)
    ensures var r := Select(methods, attr, value);
            && r.Keys <= methods.Keys
            && (forall key :: key in r ==> r[key] == methods[key])
            && (forall key :: key in methods ==> (key in r <==> AttrOf(methods[key], attr) == value))
  {
  }

  /** Every method with a string type is found under exactly that type:
      selections by two different types share no key. */
  lemma TypeSelectionsPartition(methods: map<string, ShareMethod>, t: string, u: string)
    ensures forall key :: key in methods && AttrOf(methods[key], "type") == Some(Str(t)) ==>
              key in Select(methods, "type", Some(Str(t)))
    ensures t != u ==>
              Select(methods, "type", Some(Str(t))).Keys !! Select(methods, "type", Some(Str(u))).Keys
  {
  }

  /** With the built-in settings every method is visual: selecting by
      'visual' gives back the whole table, and every other type nothing. */
  lemma DefaultMethodsAllVisual(methods: map<string, ShareMethod>, t: string)
    requires methods.Keys == DefaultSettings.Keys
    requires forall key :: key in methods ==> BuiltFrom(methods[key], NullSetting)
    ensures Select(methods, "type", Some(Str("visual"))) == methods
    ensures t != "visual" ==> Select(methods, "type", Some(Str(t))) == map[]
  {
    forall key | key in methods
      ensures AttrOf(methods[key], "type") == Some(Str("visual"))
    {
      var share :| methods[key] == ShareMethodOf(NullSetting, share);
    }
  }

  /** Sharer.getGroupedData: one item per type name, named after it, with
      every other field at its default. */
  method GetGroupedData() returns (data: map<string, GroupedDataItem>)
    ensures data.Keys == TypeNames
    ensures forall key :: key in data ==> data[key] == DefaultItem.(name := key)
  {
    data := map[];
    var keys := TypeNames;
    while keys != {}
      invariant keys <= TypeNames
      invariant data.Keys == TypeNames - keys
      invariant forall key :: key in data ==> data[key] == DefaultItem.(name := key)
      decreases keys
    {
      var key :| key in keys;
      var item := DefaultItem;
      item := item.(name := key);
      data := data[key := item];
      keys := keys - {key};
    }
  }

  /** Every method the built-in setup makes can be looked up by its key. */
  method SetupThenLookup(key: string) returns (found: Option<ShareMethod>)
    ensures found.Some? <==> key in DefaultSettings
    ensures found.Some? ==> AttrOf(found.value, "type") == Some(Str("visual"))
  {
    var sharer := new Sharer();
    found := sharer.GetShareMethod(key);
    if found.Some? {
      var share :| sharer.shareMethods[key] == ShareMethodOf(NullSetting, share);
    }
  }
}
