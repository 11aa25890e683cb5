/** The configuration schema of the daemon (src/logid/config/schema.h).

    Types that occur inside others are parameters of the functions below, so that each part is
    checked once, for any inner type. */
module ConfigSchema {
  import opened Common
  import opened Settings
  import opened ConfigIO
  import opened ConfigRoundTrip

  const BOOL := One(Bool)
  const INT := One(Narrow(32, true))
  const UINT := One(Narrow(32, false))
  const REAL := One(Real)
  const TEXT := One(Text)

  function Signed(field: string, text: string, fields: Fields): Ty {
    Group(Some(Signature(field, text)), fields)
  }

  function Opt(name: string, ty: Ty, rest: Fields): Fields {
    Field(name, true, ty, rest)
  }

  function Req(name: string, ty: Ty, rest: Fields): Fields {
    Field(name, false, ty, rest)
  }

  // Actions

  function NoAction(): Ty {
    Signed("type", "None", End)
  }

  function Keypress(): Ty {
    Signed("type", "Keypress",
           Opt("keys", Variant(Or(TEXT, Or(UINT, Last(ListOf(Variant(Or(UINT, Last(TEXT)))))))), End))
  }

  function ToggleSmartShift(): Ty {
    Signed("type", "ToggleSmartShift", End)
  }

  function ToggleHiresScroll(): Ty {
    Signed("type", "ToggleHiresScroll", End)
  }

  function CycleDPI(): Ty {
    Signed("type", "CycleDPI", Opt("dpis", ListOf(INT), Opt("sensor", INT, End)))
  }

  function ChangeDPI(): Ty {
    Signed("type", "ChangeDPI", Opt("inc", INT, Opt("sensor", INT, End)))
  }

  function ChangeHost(): Ty {
    Signed("type", "ChangeHost", Opt("host", Variant(Or(INT, Last(TEXT))), End))
  }

  function ChangeProfile(): Ty {
    Signed("type", "ChangeProfile", Opt("profile", TEXT, End))
  }

  function CommandAction(): Ty {
    Signed("type", "Command", Opt("command", TEXT, Opt("args", ListOf(TEXT), End)))
  }

  function TouchpadGesture(basicAction: Ty): Ty {
    Signed("type", "TouchpadGesture",
           Opt("fingers", UINT, Opt("scale", REAL, Opt("invert", BOOL,
           Opt("click_threshold", INT, Opt("click", basicAction, End))))))
  }

  function GestureAction(gesture: Ty): Ty {
    Signed("type", "Gestures", Opt("gestures", MapOf("direction", Text, true, gesture), End))
  }

  /** The eight alternatives ahead of Command, which both action variants begin with. */
  function Actions(tail: Alts): Alts {
    Or(NoAction(), Or(Keypress(), FromToggles(FromChanges(tail))))
  }

  function FromToggles(tail: Alts): Alts {
    Or(ToggleSmartShift(), Or(ToggleHiresScroll(), Or(CycleDPI(), tail)))
  }

  function FromChanges(tail: Alts): Alts {
    Or(ChangeDPI(), Or(ChangeHost(), Or(ChangeProfile(), tail)))
  }

  function BasicAction(): Ty {
    Variant(Actions(Last(CommandAction())))
  }

  function Action(basicAction: Ty, gesture: Ty): Ty {
    Variant(Actions(Or(CommandAction(), Or(TouchpadGesture(basicAction), Last(GestureAction(gesture))))))
  }

  // Gestures

  function NoGesture(): Ty {
    Signed("mode", "NoPress", Opt("threshold", INT, End))
  }

  function AxisGesture(): Ty {
    Signed("mode", "Axis",
           Opt("threshold", INT, Opt("axis", Variant(Or(TEXT, Last(UINT))), Opt("axis_multiplier", REAL, End))))
  }

  /** IntervalGesture and, under another name, FewPixelsGesture. */
  function IntervalGesture(text: string, basicAction: Ty): Ty {
    Signed("mode", text, Opt("threshold", INT, Opt("action", basicAction, Opt("interval", INT, End))))
  }

  /** ReleaseGesture and ThresholdGesture have the same members. */
  function ActionGesture(text: string, basicAction: Ty): Ty {
    Signed("mode", text, Opt("threshold", INT, Opt("action", basicAction, End)))
  }

  function Gesture(basicAction: Ty): Ty {
    Variant(Or(NoGesture(), Or(AxisGesture(),
            Or(IntervalGesture("OnInterval", basicAction), Or(IntervalGesture("OnFewPixels", basicAction),
            Or(ActionGesture("OnRelease", basicAction), Last(ActionGesture("OnThreshold", basicAction))))))))
  }

  // Devices

  function Button(action: Ty): Ty {
    Group(None, Opt("action", action, End))
  }

  function SmartShift(): Ty {
    Group(None, Opt("on", BOOL, Opt("threshold", UINT, Opt("torque", UINT, End))))
  }

  function HiresScroll(gesture: Ty): Ty {
    Group(None, Opt("hires", BOOL, Opt("invert", BOOL, Opt("target", BOOL,
                Opt("up", gesture, Opt("down", gesture, End))))))
  }

  function DPI(): Ty {
    Variant(Or(INT, Last(ListOf(INT))))
  }

  function ThumbWheel(gesture: Ty, basicAction: Ty): Ty {
    Group(None, Opt("divert", BOOL, Opt("invert", BOOL, Opt("left", gesture, Opt("right", gesture,
                Opt("proxy", basicAction, Opt("touch", basicAction, Opt("tap", basicAction, End))))))))
  }

  function RemapButton(button: Ty): Ty {
    MapOf("cid", Narrow(16, false), false, button)
  }

  function ConnectionCommand(): Ty {
    Group(None, Req("command", TEXT, Opt("args", ListOf(TEXT), End)))
  }

  function ProfileFields(smartshift: Ty, hiresscroll: Ty, buttons: Ty, thumbwheel: Ty, hook: Ty): Fields {
    Opt("dpi", DPI(), Opt("smartshift", smartshift, Opt("hiresscroll", hiresscroll,
    Opt("buttons", buttons, Opt("thumbwheel", thumbwheel,
    Opt("on_connect", hook, Opt("on_disconnect", hook, End)))))))
  }

  function Profile(basicAction: Ty, gesture: Ty, action: Ty): Ty {
    Group(None, ProfileFields(
      SmartShift(), Variant(Or(BOOL, Last(HiresScroll(gesture)))), RemapButton(Button(action)),
      ThumbWheel(gesture, basicAction), ConnectionCommand()))
  }

  function Device(profile: Ty, hook: Ty): Ty {
    Group(None, Req("default_profile", TEXT, Req("profiles", MapOf("name", Text, false, profile),
                Opt("on_connect", hook, Opt("on_disconnect", hook, End)))))
  }

  function Devices(device: Ty, profile: Ty): Ty {
    MapOf("name", Text, false, Variant(Or(device, Last(profile))))
  }

  function ConfigFields(devices: Ty): Fields {
    Opt("devices", devices, Opt("ignore", SetOf(Narrow(16, false)), Opt("io_timeout", REAL, Opt("workers", INT, End))))
  }

  function TheProfile(): Ty {
    var gesture := Gesture(BasicAction());
    Profile(BasicAction(), gesture, Action(BasicAction(), gesture))
  }

  function TheDevices(): Ty {
    Devices(Device(TheProfile(), ConnectionCommand()), TheProfile())
  }

  function Config(): Ty {
    Group(None, ConfigFields(TheDevices()))
  }

  // ---------------------------------------------------------------------------------------------
  // Signatures
  // ---------------------------------------------------------------------------------------------

  /** A number that tells all signatures of the schema apart, whatever their case: the length and
      the third letter. */
  function Code(text: string): int
    requires |text| > 2
  {
    |text| * 0x11_0000 + LowerChar(text[2]) as int
  }

  lemma CodeOfLower(a: string, b: string)
    requires |a| > 2 && |b| > 2 && Code(a) != Code(b)
    ensures Lower(a) != Lower(b)
  {
    if |a| == |b| {
      assert Lower(a)[2] != Lower(b)[2];
    }
  }

  predicate SignedIn(ty: Ty, field: string) {
    ty.Group? && ty.signature.Some? && ty.signature.value.field == field && |ty.signature.value.text| > 2
  }

  predicate AllSigned(alts: Alts, field: string) {
    SignedIn(alts.ty, field) && (alts.Or? ==> AllSigned(alts.rest, field))
  }

  function Codes(alts: Alts, field: string): set<int>
    requires AllSigned(alts, field)
  {
    {Code(alts.ty.signature.value.text)} + if alts.Or? then Codes(alts.rest, field) else {}
  }

  lemma {:induction false} SignedRejectsAll(ty: Ty, rest: Alts, field: string)
    requires SignedIn(ty, field) && AllSigned(rest, field)
    requires Code(ty.signature.value.text) !in Codes(rest, field)
    ensures RejectsAll(ty, rest)
  {
    CodeOfLower(ty.signature.value.text, rest.ty.signature.value.text);
    assert Rejects(ty, rest.ty);
    if rest.Last? {
    } else {
      SignedRejectsAll(ty, rest.rest, field);
    }
  }

  /** Well formed, and free of sets. */
  predicate Plain(ty: Ty) {
    WellFormed(ty) && NoSets(ty)
  }

  /** Alternatives signed in the same entry with different texts, well formed together. */
  predicate Good(alts: Alts, field: string, codes: set<int>) {
    && AllSigned(alts, field)
    && WellFormedAlts(alts) && Disjoint(alts) && NoSetsAlts(alts)
    && Codes(alts, field) == codes
  }

  /** One more alternative in front, signed with a text of its own. */
  lemma AddSigned(ty: Ty, rest: Alts, field: string, codes: set<int>)
    requires SignedIn(ty, field) && Plain(ty) && Good(rest, field, codes)
    requires Code(ty.signature.value.text) !in codes
    ensures Good(Or(ty, rest), field, {Code(ty.signature.value.text)} + codes)
  {
    SignedRejectsAll(ty, rest, field);
  }

  predicate GoodFields(fields: Fields, names: set<string>) {
    WellFormedFields(fields) && NoSetsFields(fields) && FieldNames(fields) == names
  }

  lemma AddField(name: string, optional: bool, ty: Ty, rest: Fields, names: set<string>)
    requires Plain(ty) && GoodFields(rest, names) && name !in names
    ensures GoodFields(Field(name, optional, ty, rest), {name} + names)
  {
  }

  // ---------------------------------------------------------------------------------------------
  // The parts of the schema are well formed
  // ---------------------------------------------------------------------------------------------

  lemma KeysOk()
    ensures Plain(Keypress())
  {
    assert Plain(Variant(Or(UINT, Last(TEXT))));
  }

  function ChangeCodes(codes: set<int>): set<int> {
    {Code("ChangeDPI")} + ({Code("ChangeHost")} + ({Code("ChangeProfile")} + codes))
  }

  function ToggleCodes(codes: set<int>): set<int> {
    {Code("ToggleSmartShift")} + ({Code("ToggleHiresScroll")} + ({Code("CycleDPI")} + codes))
  }

  lemma CodesApart(codes: set<int>)
    requires codes <= {Code("Command"), Code("TouchpadGesture"), Code("Gestures")}
    ensures Code("ChangeDPI") !in codes && Code("ChangeHost") !in codes && Code("ChangeProfile") !in codes
    ensures Code("ToggleSmartShift") !in ChangeCodes(codes) && Code("ToggleHiresScroll") !in ChangeCodes(codes)
    ensures Code("CycleDPI") !in ChangeCodes(codes)
    ensures Code("None") !in ToggleCodes(ChangeCodes(codes)) && Code("Keypress") !in ToggleCodes(ChangeCodes(codes))
  {
  }

  lemma ChangeTypesOk()
    ensures Plain(ChangeDPI()) && Plain(ChangeHost()) && Plain(ChangeProfile())
  {
  }

  lemma ChangesOk(tail: Alts, codes: set<int>)
    requires Good(tail, "type", codes)
    requires Code("ChangeDPI") !in codes && Code("ChangeHost") !in codes && Code("ChangeProfile") !in codes
    ensures Good(FromChanges(tail), "type", ChangeCodes(codes))
  {
    ChangeTypesOk();
    AddSigned(ChangeProfile(), tail, "type", codes);
    AddSigned(ChangeHost(), Or(ChangeProfile(), tail), "type", {Code("ChangeProfile")} + codes);
    AddSigned(ChangeDPI(), Or(ChangeHost(), Or(ChangeProfile(), tail)), "type",
              {Code("ChangeHost")} + ({Code("ChangeProfile")} + codes));
  }

  lemma TogglesOk(tail: Alts, codes: set<int>)
    requires Good(tail, "type", codes)
    requires Code("ToggleSmartShift") !in codes && Code("ToggleHiresScroll") !in codes && Code("CycleDPI") !in codes
    ensures Good(FromToggles(tail), "type", ToggleCodes(codes))
  {
    AddSigned(CycleDPI(), tail, "type", codes);
    AddSigned(ToggleHiresScroll(), Or(CycleDPI(), tail), "type", {Code("CycleDPI")} + codes);
    AddSigned(ToggleSmartShift(), Or(ToggleHiresScroll(), Or(CycleDPI(), tail)), "type",
              {Code("ToggleHiresScroll")} + ({Code("CycleDPI")} + codes));
  }

  lemma NoActionOk(tail: Alts, codes: set<int>)
    requires Good(tail, "type", codes)
    requires Code("None") !in codes && Code("Keypress") !in codes
    ensures Good(Or(NoAction(), Or(Keypress(), tail)), "type", {Code("None")} + ({Code("Keypress")} + codes))
  {
    KeysOk();
    AddSigned(Keypress(), tail, "type", codes);
    AddSigned(NoAction(), Or(Keypress(), tail), "type", {Code("Keypress")} + codes);
  }

  lemma ActionsOk(tail: Alts, codes: set<int>)
    requires Good(tail, "type", codes)
    requires codes <= {Code("Command"), Code("TouchpadGesture"), Code("Gestures")}
    ensures Plain(Variant(Actions(tail)))
  {
    CodesApart(codes);
    ChangesOk(tail, codes);
    TogglesOk(FromChanges(tail), ChangeCodes(codes));
    NoActionOk(FromToggles(FromChanges(tail)), ToggleCodes(ChangeCodes(codes)));
  }

  lemma BasicActionOk()
    ensures Plain(BasicAction())
  {
    assert Good(Last(CommandAction()), "type", {Code("Command")});
    ActionsOk(Last(CommandAction()), {Code("Command")});
  }

  lemma ActionGestureOk(text: string, basicAction: Ty)
    requires Plain(basicAction)
    ensures Plain(ActionGesture(text, basicAction)) && Plain(IntervalGesture(text, basicAction))
    ensures "direction" !in Names(ActionGesture(text, basicAction))
    ensures "direction" !in Names(IntervalGesture(text, basicAction))
  {
    AddField("action", true, basicAction, End, {});
    AddField("threshold", true, INT, Opt("action", basicAction, End), {"action"});
    AddField("interval", true, INT, End, {});
    AddField("action", true, basicAction, Opt("interval", INT, End), {"interval"});
    AddField("threshold", true, INT, Opt("action", basicAction, Opt("interval", INT, End)), {"action", "interval"});
  }

  lemma GestureOk(basicAction: Ty)
    requires Plain(basicAction)
    ensures Plain(Gesture(basicAction)) && GroupLike(Gesture(basicAction))
    ensures "direction" !in Names(Gesture(basicAction))
  {
    var g4 := Last(ActionGesture("OnThreshold", basicAction));
    var g3 := Or(ActionGesture("OnRelease", basicAction), g4);
    var g2 := Or(IntervalGesture("OnFewPixels", basicAction), g3);
    var g1 := Or(IntervalGesture("OnInterval", basicAction), g2);
    ActionGestureOk("OnThreshold", basicAction);
    ActionGestureOk("OnRelease", basicAction);
    ActionGestureOk("OnFewPixels", basicAction);
    ActionGestureOk("OnInterval", basicAction);
    assert Good(g4, "mode", {Code("OnThreshold")});
    AddSigned(ActionGesture("OnRelease", basicAction), g4, "mode", {Code("OnThreshold")});
    var codes3 := {Code("OnRelease")} + {Code("OnThreshold")};
    AddSigned(IntervalGesture("OnFewPixels", basicAction), g3, "mode", codes3);
    AddSigned(IntervalGesture("OnInterval", basicAction), g2, "mode", {Code("OnFewPixels")} + codes3);
    GestureFrontOk(g1, {Code("OnInterval")} + ({Code("OnFewPixels")} + codes3));
    GestureNames(basicAction);
  }

  lemma GestureFrontOk(tail: Alts, codes: set<int>)
    requires Good(tail, "mode", codes) && Code("Axis") !in codes && Code("NoPress") !in codes
    ensures Plain(Variant(Or(NoGesture(), Or(AxisGesture(), tail))))
  {
    AddSigned(AxisGesture(), tail, "mode", codes);
    AddSigned(NoGesture(), Or(AxisGesture(), tail), "mode", {Code("Axis")} + codes);
  }

  /** Alternatives that are all saved as groups without an entry named "direction". */
  predicate Undirected(alts: Alts) {
    GroupLikeAlts(alts) && "direction" !in AltNames(alts)
  }

  lemma {:induction false} UndirectedOr(ty: Ty, rest: Alts)
    requires GroupLike(ty) && "direction" !in Names(ty) && Undirected(rest)
    ensures Undirected(Or(ty, rest))
  {
  }

  lemma PlainGestureNames()
    ensures "direction" !in Names(NoGesture()) && "direction" !in Names(AxisGesture())
  {
    assert FieldNames(NoGesture().fields) == {"threshold"};
    assert FieldNames(AxisGesture().fields) == {"threshold"} + ({"axis"} + {"axis_multiplier"});
  }

  lemma GestureNames(basicAction: Ty)
    requires Plain(basicAction)
    ensures GroupLike(Gesture(basicAction)) && "direction" !in Names(Gesture(basicAction))
  {
    ActionGestureOk("OnThreshold", basicAction);
    ActionGestureOk("OnRelease", basicAction);
    ActionGestureOk("OnFewPixels", basicAction);
    ActionGestureOk("OnInterval", basicAction);
    PlainGestureNames();
    var g4 := Last(ActionGesture("OnThreshold", basicAction));
    var g3 := Or(ActionGesture("OnRelease", basicAction), g4);
    var g2 := Or(IntervalGesture("OnFewPixels", basicAction), g3);
    var g1 := Or(IntervalGesture("OnInterval", basicAction), g2);
    UndirectedOr(ActionGesture("OnRelease", basicAction), g4);
    UndirectedOr(IntervalGesture("OnFewPixels", basicAction), g3);
    UndirectedOr(IntervalGesture("OnInterval", basicAction), g2);
    UndirectedOr(AxisGesture(), g1);
    UndirectedOr(NoGesture(), Or(AxisGesture(), g1));
  }

  lemma TouchpadGestureOk(basicAction: Ty)
    requires Plain(basicAction)
    ensures Plain(TouchpadGesture(basicAction))
  {
    var f4 := Opt("click", basicAction, End);
    var f3 := Opt("click_threshold", INT, f4);
    var f2 := Opt("invert", BOOL, f3);
    var f1 := Opt("scale", REAL, f2);
    AddField("click", true, basicAction, End, {});
    AddField("click_threshold", true, INT, f4, {"click"});
    AddField("invert", true, BOOL, f3, {"click_threshold", "click"});
    AddField("scale", true, REAL, f2, {"invert", "click_threshold", "click"});
    AddField("fingers", true, UINT, f1, {"scale", "invert", "click_threshold", "click"});
  }

  lemma {:induction false} GestureActionOk(gesture: Ty)
    requires Plain(gesture) && GroupLike(gesture) && "direction" !in Names(gesture)
    ensures Plain(GestureAction(gesture))
  {
    AddField("gestures", true, MapOf("direction", Text, true, gesture), End, {});
  }

  lemma {:induction false} ActionOk(basicAction: Ty, gesture: Ty)
    requires Plain(basicAction) && Plain(gesture) && GroupLike(gesture) && "direction" !in Names(gesture)
    ensures Plain(Action(basicAction, gesture))
  {
    var a2 := Last(GestureAction(gesture));
    var a1 := Or(TouchpadGesture(basicAction), a2);
    GestureActionOk(gesture);
    TouchpadGestureOk(basicAction);
    assert Good(a2, "type", {Code("Gestures")});
    AddSigned(TouchpadGesture(basicAction), a2, "type", {Code("Gestures")});
    AddSigned(CommandAction(), a1, "type", {Code("TouchpadGesture")} + {Code("Gestures")});
    ActionsOk(Or(CommandAction(), a1), {Code("Command")} + ({Code("TouchpadGesture")} + {Code("Gestures")}));
  }

  lemma HiresScrollOk(gesture: Ty)
    requires Plain(gesture)
    ensures Plain(Variant(Or(BOOL, Last(HiresScroll(gesture)))))
  {
    var f4 := Opt("down", gesture, End);
    var f3 := Opt("up", gesture, f4);
    var f2 := Opt("target", BOOL, f3);
    var f1 := Opt("invert", BOOL, f2);
    AddField("down", true, gesture, End, {});
    AddField("up", true, gesture, f4, {"down"});
    AddField("target", true, BOOL, f3, {"up", "down"});
    AddField("invert", true, BOOL, f2, {"target", "up", "down"});
    AddField("hires", true, BOOL, f1, {"invert", "target", "up", "down"});
    assert Plain(HiresScroll(gesture));
    var alts := Or(BOOL, Last(HiresScroll(gesture)));
    assert Rejects(BOOL, HiresScroll(gesture));
    assert WellFormedAlts(alts) && Disjoint(alts) && NoSetsAlts(alts);
  }

  lemma ThumbWheelOk(gesture: Ty, basicAction: Ty)
    requires Plain(gesture) && Plain(basicAction)
    ensures Plain(ThumbWheel(gesture, basicAction))
  {
    var f6 := Opt("tap", basicAction, End);
    var f5 := Opt("touch", basicAction, f6);
    var f4 := Opt("proxy", basicAction, f5);
    var f3 := Opt("right", gesture, f4);
    var f2 := Opt("left", gesture, f3);
    var f1 := Opt("invert", BOOL, f2);
    AddField("tap", true, basicAction, End, {});
    AddField("touch", true, basicAction, f6, {"tap"});
    AddField("proxy", true, basicAction, f5, {"touch", "tap"});
    AddField("right", true, gesture, f4, {"proxy", "touch", "tap"});
    AddField("left", true, gesture, f3, {"right", "proxy", "touch", "tap"});
    AddField("invert", true, BOOL, f2, {"left", "right", "proxy", "touch", "tap"});
    AddField("divert", true, BOOL, f1, {"invert", "left", "right", "proxy", "touch", "tap"});
  }

  lemma ButtonsOk(action: Ty)
    requires Plain(action)
    ensures Plain(RemapButton(Button(action)))
  {
    AddField("action", true, action, End, {});
    assert Plain(Button(action)) && Names(Button(action)) == {"action"};
  }

  lemma HookFieldsOk(buttons: Ty, thumbwheel: Ty, hook: Ty)
    requires Plain(buttons) && Plain(thumbwheel) && Plain(hook)
    ensures GoodFields(
              Opt("buttons", buttons, Opt("thumbwheel", thumbwheel,
              Opt("on_connect", hook, Opt("on_disconnect", hook, End)))),
              {"buttons", "thumbwheel", "on_connect", "on_disconnect"})
  {
    var f6 := Opt("on_disconnect", hook, End);
    var f5 := Opt("on_connect", hook, f6);
    var f4 := Opt("thumbwheel", thumbwheel, f5);
    AddField("on_disconnect", true, hook, End, {});
    AddField("on_connect", true, hook, f6, {"on_disconnect"});
    AddField("thumbwheel", true, thumbwheel, f5, {"on_connect", "on_disconnect"});
    AddField("buttons", true, buttons, f4, {"thumbwheel", "on_connect", "on_disconnect"});
  }

  lemma ProfileFieldsOk(smartshift: Ty, hiresscroll: Ty, buttons: Ty, thumbwheel: Ty, hook: Ty)
    requires Plain(smartshift) && Plain(hiresscroll) && Plain(buttons) && Plain(thumbwheel) && Plain(hook)
    ensures GoodFields(ProfileFields(smartshift, hiresscroll, buttons, thumbwheel, hook),
                       {"dpi", "smartshift", "hiresscroll", "buttons", "thumbwheel", "on_connect", "on_disconnect"})
  {
    HookFieldsOk(buttons, thumbwheel, hook);
    assert Plain(DPI());
    var names := {"buttons", "thumbwheel", "on_connect", "on_disconnect"};
    var f3 := Opt("buttons", buttons, Opt("thumbwheel", thumbwheel,
                  Opt("on_connect", hook, Opt("on_disconnect", hook, End))));
    var f2 := Opt("hiresscroll", hiresscroll, f3);
    AddField("hiresscroll", true, hiresscroll, f3, names);
    AddField("smartshift", true, smartshift, f2, {"hiresscroll"} + names);
    AddField("dpi", true, DPI(), Opt("smartshift", smartshift, f2), {"smartshift"} + ({"hiresscroll"} + names));
  }

  lemma SmallGroupsOk()
    ensures Plain(SmartShift()) && Plain(ConnectionCommand())
  {
  }

  lemma ProfileOk(basicAction: Ty, gesture: Ty, action: Ty)
    requires Plain(basicAction) && Plain(gesture) && Plain(action)
    ensures var profile := Profile(basicAction, gesture, action);
            Plain(profile) && "name" !in Names(profile) && "default_profile" !in Names(profile)
  {
    HiresScrollOk(gesture);
    ThumbWheelOk(gesture, basicAction);
    ButtonsOk(action);
    SmallGroupsOk();
    ProfileFieldsOk(SmartShift(), Variant(Or(BOOL, Last(HiresScroll(gesture)))), RemapButton(Button(action)),
                    ThumbWheel(gesture, basicAction), ConnectionCommand());
  }

  lemma {:induction false} DeviceOk(profile: Ty, hook: Ty)
    requires Plain(profile) && profile.Group? && "name" !in Names(profile) && Plain(hook)
    ensures Plain(Device(profile, hook)) && "name" !in Names(Device(profile, hook))
  {
    var f3 := Opt("on_disconnect", hook, End);
    var f2 := Opt("on_connect", hook, f3);
    var f1 := Req("profiles", MapOf("name", Text, false, profile), f2);
    AddField("on_disconnect", true, hook, End, {});
    AddField("on_connect", true, hook, f3, {"on_disconnect"});
    AddField("profiles", false, MapOf("name", Text, false, profile), f2, {"on_connect", "on_disconnect"});
    AddField("default_profile", false, TEXT, f1, {"profiles", "on_connect", "on_disconnect"});
  }

  lemma {:induction false} TwoGroups(a: Ty, b: Ty)
    requires a.Group? && b.Group?
    ensures GroupLikeAlts(Or(a, Last(b))) && AltNames(Or(a, Last(b))) == Names(a) + Names(b)
  {
    var last := Last(b);
    assert GroupLikeAlts(last) && AltNames(last) == Names(b);
  }

  /** A saved profile lacks the members every device entry has, so it is never read as a device. */
  lemma {:induction false} DevicesOk(profile: Ty, hook: Ty)
    requires Plain(profile) && profile.Group? && Plain(hook)
    requires "name" !in Names(profile) && "default_profile" !in Names(profile)
    ensures Plain(Devices(Device(profile, hook), profile))
  {
    var device := Device(profile, hook);
    DeviceOk(profile, hook);
    assert NeedsMore(device.fields, Names(profile));
    assert Rejects(device, profile);
    var alts := Or(device, Last(profile));
    assert Disjoint(alts) && WellFormedAlts(alts) && NoSetsAlts(alts);
    TwoGroups(device, profile);
  }

  lemma ConfigOk(devices: Ty)
    requires Plain(devices)
    ensures WellFormed(Group(None, ConfigFields(devices)))
  {
    var rest := ConfigFields(devices).rest;
    assert WellFormedFields(rest.rest) && FieldNames(rest.rest) == {"io_timeout", "workers"};
    assert WellFormedFields(rest) && FieldNames(rest) == {"ignore"} + FieldNames(rest.rest);
  }

  lemma ProfileOfOk(basicAction: Ty)
    requires Plain(basicAction)
    ensures var gesture := Gesture(basicAction);
            var profile := Profile(basicAction, gesture, Action(basicAction, gesture));
            Plain(profile) && "name" !in Names(profile) && "default_profile" !in Names(profile)
  {
    var gesture := Gesture(basicAction);
    GestureOk(basicAction);
    ActionOk(basicAction, gesture);
    ProfileOk(basicAction, gesture, Action(basicAction, gesture));
  }

  lemma TheDevicesOk()
    ensures Plain(TheDevices())
  {
    BasicActionOk();
    ProfileOfOk(BasicAction());
    assert Plain(ConnectionCommand());
    DevicesOk(TheProfile(), ConnectionCommand());
  }

  /** The repository's schema is well formed: all its variants are ordered choices whose
      alternatives reject what later ones save, and no key of a keyed list clashes with a member. */
  lemma SchemaIsWellFormed()
    ensures WellFormed(Config())
  {
    TheDevicesOk();
    ConfigOk(TheDevices());
  }

  lemma {:induction false} IgnoreDecides(devices: Ty, v: Value)
    requires NoSets(devices) && HasType(Group(None, ConfigFields(devices)), v)
    ensures |v.members_| == 4 && (v.members_[1].Some? ==> v.members_[1].value.VSet?)
    ensures SetsEmpty(Group(None, ConfigFields(devices)), v) <==>
            v.members_[1].None? || v.members_[1].value.members == []
  {
    var members := v.members_;
    var rest := ConfigFields(devices).rest;
    assert FieldsHaveType(rest, members[1..]);
    assert FieldsHaveType(rest.rest, members[1..][1..]);
    assert FieldsHaveType(rest.rest.rest, members[1..][1..][1..]);
    assert rest.rest.rest.rest == End && FieldsHaveType(End, members[1..][1..][1..][1..]);
    assert members[1..][0] == members[1];
    assert members[1].Some? ==> HasType(SetOf(Narrow(16, false)), members[1].value);
    assert FieldSetsEmpty(rest.rest, members[1..][1..]);
    assert SetsEmpty(Group(None, ConfigFields(devices)), v) == FieldSetsEmpty(ConfigFields(devices), members);
    assert FieldSetsEmpty(rest, members[1..]) <==> (members[1].Some? ==> members[1].value.members == []);
    if members[0].Some? {
      NoSetsAreEmpty(devices, members[0].value);
    }
  }

  lemma {:induction false} ConfigRoundTripsFor(devices: Ty, v: Value)
    requires Plain(devices) && HasType(Group(None, ConfigFields(devices)), v)
    ensures |v.members_| == 4 && (v.members_[1].Some? ==> v.members_[1].value.VSet?)
    ensures var config := Group(None, ConfigFields(devices));
            && (Fresh(config, v).Some? <==> v.members_[1].None? || v.members_[1].value.members == [])
            && (Fresh(config, v).Some? ==> Load(config, Fresh(config, v).value) == Some(v))
  {
    var config := Group(None, ConfigFields(devices));
    ConfigOk(devices);
    IgnoreDecides(devices, v);
    SavesIffSetsEmpty(config, v);
    if Fresh(config, v).Some? {
      RoundTrip(config, v, Fresh(config, v).value);
    }
  }

  /** What this means for the daemon's configuration: it can be saved exactly when it ignores no
      device, and whenever it can be saved it loads back as itself. */
  lemma {:induction false} ConfigRoundTrips(v: Value)
    requires HasType(Config(), v)
    ensures |v.members_| == 4 && (v.members_[1].Some? ==> v.members_[1].value.VSet?)
    ensures Fresh(Config(), v).Some? <==> v.members_[1].None? || v.members_[1].value.members == []
    ensures Fresh(Config(), v).Some? ==> Load(Config(), Fresh(Config(), v).value) == Some(v)
  {
    TheDevicesOk();
    ConfigRoundTripsFor(TheDevices(), v);
  }

  /** Configuration::save writes over the tree the file was read into.  A save that succeeds loads
      back as the configuration saved exactly when no option that is empty now still stands, in
      loadable form, in that tree. */
  lemma {:induction false} SaveOverFile(v: Value, root: seq<Entry>, s: Setting)
    requires HasType(Config(), v) && NoDuplicates(root)
    requires SetInto(Config(), SGroup(root), v) == Some(s)
    ensures Load(Config(), s) == Some(v) <==> NoLeftovers(ConfigFields(TheDevices()), SGroup(root), v.members_)
  {
    SchemaIsWellFormed();
    FlatConfig(TheDevices());
    OverwriteRoundTrip(ConfigFields(TheDevices()), root, v, s);
  }

  /** The configuration the daemon holds is one of the schema's values: whatever tree it was loaded from, if
      it can be saved afresh it loads back as itself. */
  lemma {:induction false} LoadedConfigReloads(s: Setting, v: Value)
    requires Load(Config(), s) == Some(v)
    ensures HasType(Config(), v)
    ensures Fresh(Config(), v).Some? ==> Load(Config(), Fresh(Config(), v).value) == Some(v)
  {
    LoadHasType(Config(), s);
    ConfigRoundTrips(v);
  }

  /** And saved over the very tree it was loaded from, it loads back as itself whenever the save succeeds:
      leftovers come only from options emptied in between. */
  lemma {:induction false} LoadedConfigResaves(v: Value, root: seq<Entry>, s: Setting)
    requires Load(Config(), SGroup(root)) == Some(v) && HasType(Config(), v) && NoDuplicates(root)
    requires SetInto(Config(), SGroup(root), v) == Some(s)
    ensures Load(Config(), s) == Some(v)
  {
    SaveOverFile(v, root, s);
    LoadedHasNoLeftovers(ConfigFields(TheDevices()), SGroup(root), v.members_);
  }

  lemma OneIgnored(devices: Ty)
    ensures HasType(Group(None, ConfigFields(devices)), VGroup([None, Some(VSet([VInt(0x4082)])), None, None]))
  {
    var members := [None, Some(VSet([VInt(0x4082)])), None, None];
    var fields := ConfigFields(devices);
    assert HasType(SetOf(Narrow(16, false)), VSet([VInt(0x4082)]));
    assert members[1..][1..][1..][1..] == [] && FieldsHaveType(fields.rest.rest, members[1..][1..]);
  }

  /** A configuration that ignores one device, and nothing else, cannot be saved. */
  lemma IgnoringOneDevice() returns (v: Value)
    ensures HasType(Config(), v) && Fresh(Config(), v).None?
  {
    v := VGroup([None, Some(VSet([VInt(0x4082)])), None, None]);
    OneIgnored(TheDevices());
    ConfigRoundTrips(v);
  }

  lemma FlatConfig(devices: Ty)
    requires devices.MapOf?
    ensures FlatFields(ConfigFields(devices))
  {
    assert FlatFields(ConfigFields(devices).rest.rest);
  }
}
