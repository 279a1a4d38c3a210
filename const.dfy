/** The integration's constants and the shape of a stored configuration entry. */
module Const {

  const DOMAIN := "av_weather"

  const METAR_API_URL := "https://aviationweather.gov/api/data/metar"
  const TAF_API_URL := "https://aviationweather.gov/api/data/taf"

  const CONF_ICAO_CODES := "icao_codes"
  const CONF_FEEDS := "feeds"

  const FEED_METAR := "METAR"
  const FEED_TAF := "TAF"

  const CUSTOM_USER_AGENT := "HomeAssistant-AviationWeather/1.0.0"

  const METAR_SENSOR_NAME := "METAR"
  const TAF_SENSOR_NAME := "TAF"

  const SERVICE_UPDATE_WEATHER := "update_weather"

  /** The data dictionary of a configuration entry: `{icao_codes: str, feeds: list}`. */
  datatype EntryData = EntryData(icaoCodes: string, feeds: seq<string>)

  /** A configuration entry; the options step rewrites its data in place. */
  class ConfigEntry {
    const entryId: string
    var data: EntryData

    constructor (entryId: string, data: EntryData)
      ensures this.entryId == entryId && this.data == data
    {
      this.entryId := entryId;
      this.data := data;
    }
  }
}
