/** The `Sfmta` record: one vehicle-position report, keyed by `report_time`. */
module Records {
  import opened Types

  /** The value an `Sfmta` object holds, field by field in declaration order. */
  datatype Record = Record(
    reportTime: Int64,
    vehicleTag: Int32,
    longitude: Float32,
    latitude: Float32,
    speed: Float32,
    heading: Float32)

  /** The mutable Java bean: six private fields, a constructor that stores its
      arguments through the setters, and one getter and one setter per field. */
  class Sfmta {
    var reportTime: Int64
    var vehicleTag: Int32
    var longitude: Float32
    var latitude: Float32
    var speed: Float32
    var heading: Float32

    /** The record this object currently holds. */
    function Value(): Record
      reads this
    {
      Record(reportTime, vehicleTag, longitude, latitude, speed, heading)
    }

    constructor (reportTime: Int64, vehicleTag: Int32, longitude: Float32,
                 latitude: Float32, speed: Float32, heading: Float32)
      ensures GetReportTime() == reportTime && GetVehicleTag() == vehicleTag
      ensures GetLongitude() == longitude && GetLatitude() == latitude
      ensures GetSpeed() == speed && GetHeading() == heading
      ensures Value() == Record(reportTime, vehicleTag, longitude, latitude, speed, heading)
    {
      new;
      SetReportTime(reportTime);
      SetVehicleTag(vehicleTag);
      SetLongitude(longitude);
      SetLatitude(latitude);
      SetSpeed(speed);
      SetHeading(heading);
    }

    function GetReportTime(): Int64
      reads this
    {
      reportTime
    }

    method SetReportTime(v: Int64)
      modifies this
      ensures Value() == old(Value()).(reportTime := v)
    {
      reportTime := v;
    }

    function GetVehicleTag(): Int32
      reads this
    {
      vehicleTag
    }

    method SetVehicleTag(v: Int32)
      modifies this
      ensures Value() == old(Value()).(vehicleTag := v)
    {
      vehicleTag := v;
    }

    function GetLongitude(): Float32
      reads this
    {
      longitude
    }

    method SetLongitude(v: Float32)
      modifies this
      ensures Value() == old(Value()).(longitude := v)
    {
      longitude := v;
    }

    function GetLatitude(): Float32
      reads this
    {
      latitude
    }

    method SetLatitude(v: Float32)
      modifies this
      ensures Value() == old(Value()).(latitude := v)
    {
      latitude := v;
    }

    function GetSpeed(): Float32
      reads this
    {
      speed
    }

    method SetSpeed(v: Float32)
      modifies this
      ensures Value() == old(Value()).(speed := v)
    {
      speed := v;
    }

    function GetHeading(): Float32
      reads this
    {
      heading
    }

    method SetHeading(v: Float32)
      modifies this
      ensures Value() == old(Value()).(heading := v)
    {
      heading := v;
    }
  }
}
