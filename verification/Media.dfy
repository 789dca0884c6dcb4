/** What the protocol and the settings both say of encoded video. */
module Media {
  datatype VideoCodec = H264 | H265 | Av1

  datatype ColorSpace = Srgb | DisplayP3 | Rec709 | Rec2020Pq
}
