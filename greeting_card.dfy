/** The greeting card, and the name, building and loading rules it shares with
    the user card: props override the profile held by the user context, which
    falls back to fixed texts. The context is an input: without a provider it
    holds its default value, a `null` profile that is still loading. */
module GreetingCard {
  import opened Text
  import opened JsValues

  /** `typeof loadingProp === "boolean" ? loadingProp : profileLoading` */
  function EffectiveLoading(loadingProp: JVal, contextLoading: JVal): (r: JVal)
    ensures loadingProp.Bool? ==> r == loadingProp
    ensures !loadingProp.Bool? ==> r == contextLoading
  {
    if loadingProp.Bool? then loadingProp else contextLoading
  }

  /** A boolean prop decides, even `false` against a loading context; any other
      prop (such as `undefined` or `0`) defers to the context. */
  lemma BooleanPropWins(contextLoading: JVal)
    ensures !Truthy(EffectiveLoading(Bool(false), contextLoading))
    ensures Truthy(EffectiveLoading(Bool(true), contextLoading))
    ensures EffectiveLoading(Num(0), contextLoading) == contextLoading
  {
  }

  /** `nameProp || profile?.FirstName || "Guest"` */
  function CustomerName(nameProp: JVal, profile: JVal): (r: JVal)
    ensures Truthy(r)
    ensures Truthy(nameProp) ==> r == nameProp
    ensures !Truthy(nameProp) && Truthy(Get(profile, "FirstName")) ==> r == Get(profile, "FirstName")
    ensures !Truthy(nameProp) && !Truthy(Get(profile, "FirstName")) ==> r == Str("Guest")
  {
    Or(nameProp, Or(Get(profile, "FirstName"), Str("Guest")))
  }

  /** `buildingProp`, else "building - unit" when the profile names both, else
      the building, else a dash. */
  function BuildingLabel(buildingProp: JVal, profile: JVal): (r: JVal)
    ensures Truthy(r)
    ensures Truthy(buildingProp) ==> r == buildingProp
    ensures !Truthy(buildingProp) && Truthy(Get(profile, "BuildingName")) && Truthy(Get(profile, "UnitName")) ==>
      r == Str(ToJsString(Get(profile, "BuildingName")) + " - " + ToJsString(Get(profile, "UnitName")))
    ensures !Truthy(buildingProp) && Truthy(Get(profile, "BuildingName")) && !Truthy(Get(profile, "UnitName")) ==>
      r == Get(profile, "BuildingName")
    ensures !Truthy(buildingProp) && !Truthy(Get(profile, "BuildingName")) ==> r == Str(DASH)
  {
    var building := Or(Get(profile, "BuildingName"), Str(""));
    var unit := Or(Get(profile, "UnitName"), Str(""));
    Or(buildingProp,
       if Truthy(building) then
         (if Truthy(unit) then Str(ToJsString(building) + " - " + ToJsString(unit)) else building)
       else Str(DASH))
  }

  /** A unit without a building is never shown. */
  lemma UnitNeedsBuilding(profile: JVal)
    requires !Truthy(Get(profile, "BuildingName"))
    ensures BuildingLabel(Undefined, profile) == Str(DASH)
  {
  }

  datatype View =
    | Skeleton
    | Greeting(name: string, building: string)
    /** The name or the building is an object, which is not a valid `Text`
        child, so rendering throws. */
    | RenderError

  /** The skeleton while loading, otherwise "Hi, <name>" and the building. */
  function Render(loadingProp: JVal, nameProp: JVal, buildingProp: JVal,
                  contextProfile: JVal, contextLoading: JVal): (v: View)
    ensures v.Skeleton? <==> Truthy(EffectiveLoading(loadingProp, contextLoading))
    ensures v.RenderError? <==>
      !Truthy(EffectiveLoading(loadingProp, contextLoading)) &&
      !(Renderable(CustomerName(nameProp, contextProfile)) && Renderable(BuildingLabel(buildingProp, contextProfile)))
    ensures v.Greeting? ==>
      v.name == TextOf(CustomerName(nameProp, contextProfile)) &&
      v.building == " " + TextOf(BuildingLabel(buildingProp, contextProfile))
  {
    var name := CustomerName(nameProp, contextProfile);
    var building := BuildingLabel(buildingProp, contextProfile);
    if Truthy(EffectiveLoading(loadingProp, contextLoading)) then Skeleton
    else if !(Renderable(name) && Renderable(building)) then RenderError
    else Greeting(TextOf(name), " " + TextOf(building))
  }

  /** With no props, the context's default value (no provider) shows the
      skeleton; once a profile load ends without a profile, the card greets a
      guest with a dash. */
  lemma GuestGreeting()
    ensures Render(Undefined, Undefined, Undefined, Null, Bool(true)) == Skeleton
    ensures Render(Undefined, Undefined, Undefined, Null, Bool(false)) == Greeting("Guest", " " + DASH)
  {
  }

  /** A profile with plain string fields always renders: only an object-valued
      prop or field can break the card. */
  lemma StringProfileRenders(name: string, building: string, unit: string, contextLoading: JVal)
    requires !Truthy(contextLoading)
    ensures Render(Undefined, Undefined, Undefined,
                   Obj(map["FirstName" := Str(name), "BuildingName" := Str(building), "UnitName" := Str(unit)]),
                   contextLoading).Greeting?
  {
    var p := Obj(map["FirstName" := Str(name), "BuildingName" := Str(building), "UnitName" := Str(unit)]);
    assert Get(p, "FirstName") == Str(name) && Get(p, "BuildingName") == Str(building) && Get(p, "UnitName") == Str(unit);
  }
}
