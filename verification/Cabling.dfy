/** Rows of the cable and hose schedule. */
module Cabling {
  import opened Lists
  import opened Catalog
  import opened Dtm
  import opened SiteIndex

  datatype Service =
    | Feeder                    // switchboard to panelboard, 415Y/240 V 3ph, 175 A
    | DcStrings                 // CATL bank to PCS, 1500 V DC
    | PduBranch                 // panelboard to PDU
    | LoadBranch                // panelboard to CDU or dry cooler
    | PsuFeed                   // PDU to server or switch
    | Patch(protocol: Option<string>)
    | Uplink

  datatype Cable = Cable(
    tag: string, service: Service,
    fromTag: string, fromPort: string, toTag: string, toPort: string, media: string)

  function Run(src: Device, dst: Device, service: Service, media: string): Cable {
    Cable("", service, Tag(src), "OUT", Tag(dst), "PWR", media)
  }
}
