/** The request body of a reverse-geocoding lookup. */
module Geo {
  /** Latitude and longitude exactly as the JSON body carried them (fields
      "lat" and "lon"): raw strings, never parsed as numbers. */
  datatype Coordinates = Coordinates(lat: string, long: string)
}
