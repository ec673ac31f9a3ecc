/** src/pages/user/Map.tsx: the resident's map page. Its `userInDanger`
    guard and ray cast are the dashboard's (`UserDashboard.UserInDanger`);
    the page hands the result to the map as `showUserInDanger`, together
    with the user's marker. */
module UserMap {
  import opened Wrappers
  import opened Types
  import UserDashboard
  import MapComponent

  /** The properties the page passes to `MapComponent`. */
  datatype MapProps = MapProps(
    sensors: seq<SensorReading>,
    userLocation: Option<MapComponent.NamedPoint>,
    prediction: Option<PredictionData>,
    showUserInDanger: bool)

  /** `userLocation`: the user's coordinates, labelled with their address. */
  function UserMarker(user: Option<User>): (m: Option<MapComponent.NamedPoint>)
    ensures m.Some? <==> user.Some?
    ensures m.Some? ==> m.value.latitude == user.value.location.latitude
    ensures m.Some? ==> m.value.longitude == user.value.location.longitude
    ensures m.Some? ==> m.value.name == user.value.location.address
  {
    if user.None? then None
    else Some(MapComponent.NamedPoint(user.value.location.latitude, user.value.location.longitude,
                                      user.value.location.address))
  }

  /** The page's props. The danger flag passed on is exactly the page's
      `userInDanger`, so it is false without a prediction or a user, and the
      map only ever marks a user marker it actually draws as in danger. */
  function Props(sensors: seq<SensorReading>, prediction: Option<PredictionData>, user: Option<User>): (r: Result<MapProps, string>)
    ensures r.Failure? <==> UserDashboard.UserInDanger(prediction, user).Failure?
    ensures r.Success? ==> r.value.showUserInDanger == UserDashboard.UserInDanger(prediction, user).value
    ensures r.Success? && (prediction.None? || user.None?) ==> !r.value.showUserInDanger
    ensures r.Success? && r.value.showUserInDanger ==> r.value.userLocation.Some?
    ensures r.Success? ==> r.value.userLocation == UserMarker(user) && r.value.sensors == sensors
  {
    match UserDashboard.UserInDanger(prediction, user)
    case Failure(e) => Failure(e)
    case Success(inDanger) => Success(MapProps(sensors, UserMarker(user), prediction, inDanger))
  }

  /** The notice above the map, shown only when the user has a location. */
  function StatusNotice(user: Option<User>, userInDanger: bool): (n: Option<string>)
    ensures n.Some? <==> user.Some?
    ensures n.Some? ==> (n.value == "Warning: You are in a predicted affected zone" <==> userInDanger)
  {
    if user.None? then None
    else if userInDanger then Some("Warning: You are in a predicted affected zone")
    else Some("Your location is currently safe")
  }
}
