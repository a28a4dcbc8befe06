/** The byte-substitution tables of AES128 and the round-constant table of its key schedule. */
module Tables {
  import GaloisField

  // The program keeps each S-box as a flat array of 256 bytes and reads entry `in & 0xFF`. Here the
  // table is split into sixteen rows of sixteen bytes, row r holding entries 16*r .. 16*r+15 in the
  // program's order (the layout of section 5.1.1 of FIPS-197), and a lookup selects the row by the
  // high four bits and the entry by the low four, one bit at a time.

  /** `sBoxTransform(in)`: entry `in & 0xFF` of the S-box. */
  function SBoxTransform(b: bv8): bv8 {
    if b & 0x80 == 0 then
      if b & 0x40 == 0 then
        if b & 0x20 == 0 then
          (if b & 0x10 == 0 then SBoxRow0(b & 0xF) else SBoxRow1(b & 0xF))
        else
          (if b & 0x10 == 0 then SBoxRow2(b & 0xF) else SBoxRow3(b & 0xF))
      else
        if b & 0x20 == 0 then
          (if b & 0x10 == 0 then SBoxRow4(b & 0xF) else SBoxRow5(b & 0xF))
        else
          (if b & 0x10 == 0 then SBoxRow6(b & 0xF) else SBoxRow7(b & 0xF))
    else
      if b & 0x40 == 0 then
        if b & 0x20 == 0 then
          (if b & 0x10 == 0 then SBoxRow8(b & 0xF) else SBoxRow9(b & 0xF))
        else
          (if b & 0x10 == 0 then SBoxRowA(b & 0xF) else SBoxRowB(b & 0xF))
      else
        if b & 0x20 == 0 then
          (if b & 0x10 == 0 then SBoxRowC(b & 0xF) else SBoxRowD(b & 0xF))
        else
          (if b & 0x10 == 0 then SBoxRowE(b & 0xF) else SBoxRowF(b & 0xF))
  }

  /** `invSBoxTransform(in)`: entry `in & 0xFF` of the inverse S-box. */
  function InvSBoxTransform(b: bv8): bv8 {
    if b & 0x80 == 0 then
      if b & 0x40 == 0 then
        if b & 0x20 == 0 then
          (if b & 0x10 == 0 then InvSBoxRow0(b & 0xF) else InvSBoxRow1(b & 0xF))
        else
          (if b & 0x10 == 0 then InvSBoxRow2(b & 0xF) else InvSBoxRow3(b & 0xF))
      else
        if b & 0x20 == 0 then
          (if b & 0x10 == 0 then InvSBoxRow4(b & 0xF) else InvSBoxRow5(b & 0xF))
        else
          (if b & 0x10 == 0 then InvSBoxRow6(b & 0xF) else InvSBoxRow7(b & 0xF))
    else
      if b & 0x40 == 0 then
        if b & 0x20 == 0 then
          (if b & 0x10 == 0 then InvSBoxRow8(b & 0xF) else InvSBoxRow9(b & 0xF))
        else
          (if b & 0x10 == 0 then InvSBoxRowA(b & 0xF) else InvSBoxRowB(b & 0xF))
      else
        if b & 0x20 == 0 then
          (if b & 0x10 == 0 then InvSBoxRowC(b & 0xF) else InvSBoxRowD(b & 0xF))
        else
          (if b & 0x10 == 0 then InvSBoxRowE(b & 0xF) else InvSBoxRowF(b & 0xF))
  }

  // Rows 0x0 .. 0xF of the S-box

  function SBoxRow0(c: bv8): bv8 {
    if c & 0x8 == 0 then
      if c & 0x4 == 0 then (if c & 0x2 == 0 then (if c & 0x1 == 0 then 0x63 else 0x7c) else (if c & 0x1 == 0 then 0x77 else 0x7b))
      else (if c & 0x2 == 0 then (if c & 0x1 == 0 then 0xf2 else 0x6b) else (if c & 0x1 == 0 then 0x6f else 0xc5))
    else
      if c & 0x4 == 0 then (if c & 0x2 == 0 then (if c & 0x1 == 0 then 0x30 else 0x01) else (if c & 0x1 == 0 then 0x67 else 0x2b))
      else (if c & 0x2 == 0 then (if c & 0x1 == 0 then 0xfe else 0xd7) else (if c & 0x1 == 0 then 0xab else 0x76))
  }

  function SBoxRow1(c: bv8): bv8 {
    if c & 0x8 == 0 then
      if c & 0x4 == 0 then (if c & 0x2 == 0 then (if c & 0x1 == 0 then 0xca else 0x82) else (if c & 0x1 == 0 then 0xc9 else 0x7d))
      else (if c & 0x2 == 0 then (if c & 0x1 == 0 then 0xfa else 0x59) else (if c & 0x1 == 0 then 0x47 else 0xf0))
    else
      if c & 0x4 == 0 then (if c & 0x2 == 0 then (if c & 0x1 == 0 then 0xad else 0xd4) else (if c & 0x1 == 0 then 0xa2 else 0xaf))
      else (if c & 0x2 == 0 then (if c & 0x1 == 0 then 0x9c else 0xa4) else (if c & 0x1 == 0 then 0x72 else 0xc0))
  }

  function SBoxRow2(c: bv8): bv8 {
    if c & 0x8 == 0 then
      if c & 0x4 == 0 then (if c & 0x2 == 0 then (if c & 0x1 == 0 then 0xb7 else 0xfd) else (if c & 0x1 == 0 then 0x93 else 0x26))
      else (if c & 0x2 == 0 then (if c & 0x1 == 0 then 0x36 else 0x3f) else (if c & 0x1 == 0 then 0xf7 else 0xcc))
    else
      if c & 0x4 == 0 then (if c & 0x2 == 0 then (if c & 0x1 == 0 then 0x34 else 0xa5) else (if c & 0x1 == 0 then 0xe5 else 0xf1))
      else (if c & 0x2 == 0 then (if c & 0x1 == 0 then 0x71 else 0xd8) else (if c & 0x1 == 0 then 0x31 else 0x15))
  }

  function SBoxRow3(c: bv8): bv8 {
    if c & 0x8 == 0 then
      if c & 0x4 == 0 then (if c & 0x2 == 0 then (if c & 0x1 == 0 then 0x04 else 0xc7) else (if c & 0x1 == 0 then 0x23 else 0xc3))
      else (if c & 0x2 == 0 then (if c & 0x1 == 0 then 0x18 else 0x96) else (if c & 0x1 == 0 then 0x05 else 0x9a))
    else
      if c & 0x4 == 0 then (if c & 0x2 == 0 then (if c & 0x1 == 0 then 0x07 else 0x12) else (if c & 0x1 == 0 then 0x80 else 0xe2))
      else (if c & 0x2 == 0 then (if c & 0x1 == 0 then 0xeb else 0x27) else (if c & 0x1 == 0 then 0xb2 else 0x75))
  }

  function SBoxRow4(c: bv8): bv8 {
    if c & 0x8 == 0 then
      if c & 0x4 == 0 then (if c & 0x2 == 0 then (if c & 0x1 == 0 then 0x09 else 0x83) else (if c & 0x1 == 0 then 0x2c else 0x1a))
      else (if c & 0x2 == 0 then (if c & 0x1 == 0 then 0x1b else 0x6e) else (if c & 0x1 == 0 then 0x5a else 0xa0))
    else
      if c & 0x4 == 0 then (if c & 0x2 == 0 then (if c & 0x1 == 0 then 0x52 else 0x3b) else (if c & 0x1 == 0 then 0xd6 else 0xb3))
      else (if c & 0x2 == 0 then (if c & 0x1 == 0 then 0x29 else 0xe3) else (if c & 0x1 == 0 then 0x2f else 0x84))
  }

  function SBoxRow5(c: bv8): bv8 {
    if c & 0x8 == 0 then
      if c & 0x4 == 0 then (if c & 0x2 == 0 then (if c & 0x1 == 0 then 0x53 else 0xd1) else (if c & 0x1 == 0 then 0x00 else 0xed))
      else (if c & 0x2 == 0 then (if c & 0x1 == 0 then 0x20 else 0xfc) else (if c & 0x1 == 0 then 0xb1 else 0x5b))
    else
      if c & 0x4 == 0 then (if c & 0x2 == 0 then (if c & 0x1 == 0 then 0x6a else 0xcb) else (if c & 0x1 == 0 then 0xbe else 0x39))
      else (if c & 0x2 == 0 then (if c & 0x1 == 0 then 0x4a else 0x4c) else (if c & 0x1 == 0 then 0x58 else 0xcf))
  }

  function SBoxRow6(c: bv8): bv8 {
    if c & 0x8 == 0 then
      if c & 0x4 == 0 then (if c & 0x2 == 0 then (if c & 0x1 == 0 then 0xd0 else 0xef) else (if c & 0x1 == 0 then 0xaa else 0xfb))
      else (if c & 0x2 == 0 then (if c & 0x1 == 0 then 0x43 else 0x4d) else (if c & 0x1 == 0 then 0x33 else 0x85))
    else
      if c & 0x4 == 0 then (if c & 0x2 == 0 then (if c & 0x1 == 0 then 0x45 else 0xf9) else (if c & 0x1 == 0 then 0x02 else 0x7f))
      else (if c & 0x2 == 0 then (if c & 0x1 == 0 then 0x50 else 0x3c) else (if c & 0x1 == 0 then 0x9f else 0xa8))
  }

  function SBoxRow7(c: bv8): bv8 {
    if c & 0x8 == 0 then
      if c & 0x4 == 0 then (if c & 0x2 == 0 then (if c & 0x1 == 0 then 0x51 else 0xa3) else (if c & 0x1 == 0 then 0x40 else 0x8f))
      else (if c & 0x2 == 0 then (if c & 0x1 == 0 then 0x92 else 0x9d) else (if c & 0x1 == 0 then 0x38 else 0xf5))
    else
      if c & 0x4 == 0 then (if c & 0x2 == 0 then (if c & 0x1 == 0 then 0xbc else 0xb6) else (if c & 0x1 == 0 then 0xda else 0x21))
      else (if c & 0x2 == 0 then (if c & 0x1 == 0 then 0x10 else 0xff) else (if c & 0x1 == 0 then 0xf3 else 0xd2))
  }

  function SBoxRow8(c: bv8): bv8 {
    if c & 0x8 == 0 then
      if c & 0x4 == 0 then (if c & 0x2 == 0 then (if c & 0x1 == 0 then 0xcd else 0x0c) else (if c & 0x1 == 0 then 0x13 else 0xec))
      else (if c & 0x2 == 0 then (if c & 0x1 == 0 then 0x5f else 0x97) else (if c & 0x1 == 0 then 0x44 else 0x17))
    else
      if c & 0x4 == 0 then (if c & 0x2 == 0 then (if c & 0x1 == 0 then 0xc4 else 0xa7) else (if c & 0x1 == 0 then 0x7e else 0x3d))
      else (if c & 0x2 == 0 then (if c & 0x1 == 0 then 0x64 else 0x5d) else (if c & 0x1 == 0 then 0x19 else 0x73))
  }

  function SBoxRow9(c: bv8): bv8 {
    if c & 0x8 == 0 then
      if c & 0x4 == 0 then (if c & 0x2 == 0 then (if c & 0x1 == 0 then 0x60 else 0x81) else (if c & 0x1 == 0 then 0x4f else 0xdc))
      else (if c & 0x2 == 0 then (if c & 0x1 == 0 then 0x22 else 0x2a) else (if c & 0x1 == 0 then 0x90 else 0x88))
    else
      if c & 0x4 == 0 then (if c & 0x2 == 0 then (if c & 0x1 == 0 then 0x46 else 0xee) else (if c & 0x1 == 0 then 0xb8 else 0x14))
      else (if c & 0x2 == 0 then (if c & 0x1 == 0 then 0xde else 0x5e) else (if c & 0x1 == 0 then 0x0b else 0xdb))
  }

  function SBoxRowA(c: bv8): bv8 {
    if c & 0x8 == 0 then
      if c & 0x4 == 0 then (if c & 0x2 == 0 then (if c & 0x1 == 0 then 0xe0 else 0x32) else (if c & 0x1 == 0 then 0x3a else 0x0a))
      else (if c & 0x2 == 0 then (if c & 0x1 == 0 then 0x49 else 0x06) else (if c & 0x1 == 0 then 0x24 else 0x5c))
    else
      if c & 0x4 == 0 then (if c & 0x2 == 0 then (if c & 0x1 == 0 then 0xc2 else 0xd3) else (if c & 0x1 == 0 then 0xac else 0x62))
      else (if c & 0x2 == 0 then (if c & 0x1 == 0 then 0x91 else 0x95) else (if c & 0x1 == 0 then 0xe4 else 0x79))
  }

  function SBoxRowB(c: bv8): bv8 {
    if c & 0x8 == 0 then
      if c & 0x4 == 0 then (if c & 0x2 == 0 then (if c & 0x1 == 0 then 0xe7 else 0xc8) else (if c & 0x1 == 0 then 0x37 else 0x6d))
      else (if c & 0x2 == 0 then (if c & 0x1 == 0 then 0x8d else 0xd5) else (if c & 0x1 == 0 then 0x4e else 0xa9))
    else
      if c & 0x4 == 0 then (if c & 0x2 == 0 then (if c & 0x1 == 0 then 0x6c else 0x56) else (if c & 0x1 == 0 then 0xf4 else 0xea))
      else (if c & 0x2 == 0 then (if c & 0x1 == 0 then 0x65 else 0x7a) else (if c & 0x1 == 0 then 0xae else 0x08))
  }

  function SBoxRowC(c: bv8): bv8 {
    if c & 0x8 == 0 then
      if c & 0x4 == 0 then (if c & 0x2 == 0 then (if c & 0x1 == 0 then 0xba else 0x78) else (if c & 0x1 == 0 then 0x25 else 0x2e))
      else (if c & 0x2 == 0 then (if c & 0x1 == 0 then 0x1c else 0xa6) else (if c & 0x1 == 0 then 0xb4 else 0xc6))
    else
      if c & 0x4 == 0 then (if c & 0x2 == 0 then (if c & 0x1 == 0 then 0xe8 else 0xdd) else (if c & 0x1 == 0 then 0x74 else 0x1f))
      else (if c & 0x2 == 0 then (if c & 0x1 == 0 then 0x4b else 0xbd) else (if c & 0x1 == 0 then 0x8b else 0x8a))
  }

  function SBoxRowD(c: bv8): bv8 {
    if c & 0x8 == 0 then
      if c & 0x4 == 0 then (if c & 0x2 == 0 then (if c & 0x1 == 0 then 0x70 else 0x3e) else (if c & 0x1 == 0 then 0xb5 else 0x66))
      else (if c & 0x2 == 0 then (if c & 0x1 == 0 then 0x48 else 0x03) else (if c & 0x1 == 0 then 0xf6 else 0x0e))
    else
      if c & 0x4 == 0 then (if c & 0x2 == 0 then (if c & 0x1 == 0 then 0x61 else 0x35) else (if c & 0x1 == 0 then 0x57 else 0xb9))
      else (if c & 0x2 == 0 then (if c & 0x1 == 0 then 0x86 else 0xc1) else (if c & 0x1 == 0 then 0x1d else 0x9e))
  }

  function SBoxRowE(c: bv8): bv8 {
    if c & 0x8 == 0 then
      if c & 0x4 == 0 then (if c & 0x2 == 0 then (if c & 0x1 == 0 then 0xe1 else 0xf8) else (if c & 0x1 == 0 then 0x98 else 0x11))
      else (if c & 0x2 == 0 then (if c & 0x1 == 0 then 0x69 else 0xd9) else (if c & 0x1 == 0 then 0x8e else 0x94))
    else
      if c & 0x4 == 0 then (if c & 0x2 == 0 then (if c & 0x1 == 0 then 0x9b else 0x1e) else (if c & 0x1 == 0 then 0x87 else 0xe9))
      else (if c & 0x2 == 0 then (if c & 0x1 == 0 then 0xce else 0x55) else (if c & 0x1 == 0 then 0x28 else 0xdf))
  }

  function SBoxRowF(c: bv8): bv8 {
    if c & 0x8 == 0 then
      if c & 0x4 == 0 then (if c & 0x2 == 0 then (if c & 0x1 == 0 then 0x8c else 0xa1) else (if c & 0x1 == 0 then 0x89 else 0x0d))
      else (if c & 0x2 == 0 then (if c & 0x1 == 0 then 0xbf else 0xe6) else (if c & 0x1 == 0 then 0x42 else 0x68))
    else
      if c & 0x4 == 0 then (if c & 0x2 == 0 then (if c & 0x1 == 0 then 0x41 else 0x99) else (if c & 0x1 == 0 then 0x2d else 0x0f))
      else (if c & 0x2 == 0 then (if c & 0x1 == 0 then 0xb0 else 0x54) else (if c & 0x1 == 0 then 0xbb else 0x16))
  }

  // Rows 0x0 .. 0xF of the inverse S-box

  function InvSBoxRow0(c: bv8): bv8 {
    if c & 0x8 == 0 then
      if c & 0x4 == 0 then (if c & 0x2 == 0 then (if c & 0x1 == 0 then 0x52 else 0x09) else (if c & 0x1 == 0 then 0x6a else 0xd5))
      else (if c & 0x2 == 0 then (if c & 0x1 == 0 then 0x30 else 0x36) else (if c & 0x1 == 0 then 0xa5 else 0x38))
    else
      if c & 0x4 == 0 then (if c & 0x2 == 0 then (if c & 0x1 == 0 then 0xbf else 0x40) else (if c & 0x1 == 0 then 0xa3 else 0x9e))
      else (if c & 0x2 == 0 then (if c & 0x1 == 0 then 0x81 else 0xf3) else (if c & 0x1 == 0 then 0xd7 else 0xfb))
  }

  function InvSBoxRow1(c: bv8): bv8 {
    if c & 0x8 == 0 then
      if c & 0x4 == 0 then (if c & 0x2 == 0 then (if c & 0x1 == 0 then 0x7c else 0xe3) else (if c & 0x1 == 0 then 0x39 else 0x82))
      else (if c & 0x2 == 0 then (if c & 0x1 == 0 then 0x9b else 0x2f) else (if c & 0x1 == 0 then 0xff else 0x87))
    else
      if c & 0x4 == 0 then (if c & 0x2 == 0 then (if c & 0x1 == 0 then 0x34 else 0x8e) else (if c & 0x1 == 0 then 0x43 else 0x44))
      else (if c & 0x2 == 0 then (if c & 0x1 == 0 then 0xc4 else 0xde) else (if c & 0x1 == 0 then 0xe9 else 0xcb))
  }

  function InvSBoxRow2(c: bv8): bv8 {
    if c & 0x8 == 0 then
      if c & 0x4 == 0 then (if c & 0x2 == 0 then (if c & 0x1 == 0 then 0x54 else 0x7b) else (if c & 0x1 == 0 then 0x94 else 0x32))
      else (if c & 0x2 == 0 then (if c & 0x1 == 0 then 0xa6 else 0xc2) else (if c & 0x1 == 0 then 0x23 else 0x3d))
    else
      if c & 0x4 == 0 then (if c & 0x2 == 0 then (if c & 0x1 == 0 then 0xee else 0x4c) else (if c & 0x1 == 0 then 0x95 else 0x0b))
      else (if c & 0x2 == 0 then (if c & 0x1 == 0 then 0x42 else 0xfa) else (if c & 0x1 == 0 then 0xc3 else 0x4e))
  }

  function InvSBoxRow3(c: bv8): bv8 {
    if c & 0x8 == 0 then
      if c & 0x4 == 0 then (if c & 0x2 == 0 then (if c & 0x1 == 0 then 0x08 else 0x2e) else (if c & 0x1 == 0 then 0xa1 else 0x66))
      else (if c & 0x2 == 0 then (if c & 0x1 == 0 then 0x28 else 0xd9) else (if c & 0x1 == 0 then 0x24 else 0xb2))
    else
      if c & 0x4 == 0 then (if c & 0x2 == 0 then (if c & 0x1 == 0 then 0x76 else 0x5b) else (if c & 0x1 == 0 then 0xa2 else 0x49))
      else (if c & 0x2 == 0 then (if c & 0x1 == 0 then 0x6d else 0x8b) else (if c & 0x1 == 0 then 0xd1 else 0x25))
  }

  function InvSBoxRow4(c: bv8): bv8 {
    if c & 0x8 == 0 then
      if c & 0x4 == 0 then (if c & 0x2 == 0 then (if c & 0x1 == 0 then 0x72 else 0xf8) else (if c & 0x1 == 0 then 0xf6 else 0x64))
      else (if c & 0x2 == 0 then (if c & 0x1 == 0 then 0x86 else 0x68) else (if c & 0x1 == 0 then 0x98 else 0x16))
    else
      if c & 0x4 == 0 then (if c & 0x2 == 0 then (if c & 0x1 == 0 then 0xd4 else 0xa4) else (if c & 0x1 == 0 then 0x5c else 0xcc))
      else (if c & 0x2 == 0 then (if c & 0x1 == 0 then 0x5d else 0x65) else (if c & 0x1 == 0 then 0xb6 else 0x92))
  }

  function InvSBoxRow5(c: bv8): bv8 {
    if c & 0x8 == 0 then
      if c & 0x4 == 0 then (if c & 0x2 == 0 then (if c & 0x1 == 0 then 0x6c else 0x70) else (if c & 0x1 == 0 then 0x48 else 0x50))
      else (if c & 0x2 == 0 then (if c & 0x1 == 0 then 0xfd else 0xed) else (if c & 0x1 == 0 then 0xb9 else 0xda))
    else
      if c & 0x4 == 0 then (if c & 0x2 == 0 then (if c & 0x1 == 0 then 0x5e else 0x15) else (if c & 0x1 == 0 then 0x46 else 0x57))
      else (if c & 0x2 == 0 then (if c & 0x1 == 0 then 0xa7 else 0x8d) else (if c & 0x1 == 0 then 0x9d else 0x84))
  }

  function InvSBoxRow6(c: bv8): bv8 {
    if c & 0x8 == 0 then
      if c & 0x4 == 0 then (if c & 0x2 == 0 then (if c & 0x1 == 0 then 0x90 else 0xd8) else (if c & 0x1 == 0 then 0xab else 0x00))
      else (if c & 0x2 == 0 then (if c & 0x1 == 0 then 0x8c else 0xbc) else (if c & 0x1 == 0 then 0xd3 else 0x0a))
    else
      if c & 0x4 == 0 then (if c & 0x2 == 0 then (if c & 0x1 == 0 then 0xf7 else 0xe4) else (if c & 0x1 == 0 then 0x58 else 0x05))
      else (if c & 0x2 == 0 then (if c & 0x1 == 0 then 0xb8 else 0xb3) else (if c & 0x1 == 0 then 0x45 else 0x06))
  }

  function InvSBoxRow7(c: bv8): bv8 {
    if c & 0x8 == 0 then
      if c & 0x4 == 0 then (if c & 0x2 == 0 then (if c & 0x1 == 0 then 0xd0 else 0x2c) else (if c & 0x1 == 0 then 0x1e else 0x8f))
      else (if c & 0x2 == 0 then (if c & 0x1 == 0 then 0xca else 0x3f) else (if c & 0x1 == 0 then 0x0f else 0x02))
    else
      if c & 0x4 == 0 then (if c & 0x2 == 0 then (if c & 0x1 == 0 then 0xc1 else 0xaf) else (if c & 0x1 == 0 then 0xbd else 0x03))
      else (if c & 0x2 == 0 then (if c & 0x1 == 0 then 0x01 else 0x13) else (if c & 0x1 == 0 then 0x8a else 0x6b))
  }

  function InvSBoxRow8(c: bv8): bv8 {
    if c & 0x8 == 0 then
      if c & 0x4 == 0 then (if c & 0x2 == 0 then (if c & 0x1 == 0 then 0x3a else 0x91) else (if c & 0x1 == 0 then 0x11 else 0x41))
      else (if c & 0x2 == 0 then (if c & 0x1 == 0 then 0x4f else 0x67) else (if c & 0x1 == 0 then 0xdc else 0xea))
    else
      if c & 0x4 == 0 then (if c & 0x2 == 0 then (if c & 0x1 == 0 then 0x97 else 0xf2) else (if c & 0x1 == 0 then 0xcf else 0xce))
      else (if c & 0x2 == 0 then (if c & 0x1 == 0 then 0xf0 else 0xb4) else (if c & 0x1 == 0 then 0xe6 else 0x73))
  }

  function InvSBoxRow9(c: bv8): bv8 {
    if c & 0x8 == 0 then
      if c & 0x4 == 0 then (if c & 0x2 == 0 then (if c & 0x1 == 0 then 0x96 else 0xac) else (if c & 0x1 == 0 then 0x74 else 0x22))
      else (if c & 0x2 == 0 then (if c & 0x1 == 0 then 0xe7 else 0xad) else (if c & 0x1 == 0 then 0x35 else 0x85))
    else
      if c & 0x4 == 0 then (if c & 0x2 == 0 then (if c & 0x1 == 0 then 0xe2 else 0xf9) else (if c & 0x1 == 0 then 0x37 else 0xe8))
      else (if c & 0x2 == 0 then (if c & 0x1 == 0 then 0x1c else 0x75) else (if c & 0x1 == 0 then 0xdf else 0x6e))
  }

  function InvSBoxRowA(c: bv8): bv8 {
    if c & 0x8 == 0 then
      if c & 0x4 == 0 then (if c & 0x2 == 0 then (if c & 0x1 == 0 then 0x47 else 0xf1) else (if c & 0x1 == 0 then 0x1a else 0x71))
      else (if c & 0x2 == 0 then (if c & 0x1 == 0 then 0x1d else 0x29) else (if c & 0x1 == 0 then 0xc5 else 0x89))
    else
      if c & 0x4 == 0 then (if c & 0x2 == 0 then (if c & 0x1 == 0 then 0x6f else 0xb7) else (if c & 0x1 == 0 then 0x62 else 0x0e))
      else (if c & 0x2 == 0 then (if c & 0x1 == 0 then 0xaa else 0x18) else (if c & 0x1 == 0 then 0xbe else 0x1b))
  }

  function InvSBoxRowB(c: bv8): bv8 {
    if c & 0x8 == 0 then
      if c & 0x4 == 0 then (if c & 0x2 == 0 then (if c & 0x1 == 0 then 0xfc else 0x56) else (if c & 0x1 == 0 then 0x3e else 0x4b))
      else (if c & 0x2 == 0 then (if c & 0x1 == 0 then 0xc6 else 0xd2) else (if c & 0x1 == 0 then 0x79 else 0x20))
    else
      if c & 0x4 == 0 then (if c & 0x2 == 0 then (if c & 0x1 == 0 then 0x9a else 0xdb) else (if c & 0x1 == 0 then 0xc0 else 0xfe))
      else (if c & 0x2 == 0 then (if c & 0x1 == 0 then 0x78 else 0xcd) else (if c & 0x1 == 0 then 0x5a else 0xf4))
  }

  function InvSBoxRowC(c: bv8): bv8 {
    if c & 0x8 == 0 then
      if c & 0x4 == 0 then (if c & 0x2 == 0 then (if c & 0x1 == 0 then 0x1f else 0xdd) else (if c & 0x1 == 0 then 0xa8 else 0x33))
      else (if c & 0x2 == 0 then (if c & 0x1 == 0 then 0x88 else 0x07) else (if c & 0x1 == 0 then 0xc7 else 0x31))
    else
      if c & 0x4 == 0 then (if c & 0x2 == 0 then (if c & 0x1 == 0 then 0xb1 else 0x12) else (if c & 0x1 == 0 then 0x10 else 0x59))
      else (if c & 0x2 == 0 then (if c & 0x1 == 0 then 0x27 else 0x80) else (if c & 0x1 == 0 then 0xec else 0x5f))
  }

  function InvSBoxRowD(c: bv8): bv8 {
    if c & 0x8 == 0 then
      if c & 0x4 == 0 then (if c & 0x2 == 0 then (if c & 0x1 == 0 then 0x60 else 0x51) else (if c & 0x1 == 0 then 0x7f else 0xa9))
      else (if c & 0x2 == 0 then (if c & 0x1 == 0 then 0x19 else 0xb5) else (if c & 0x1 == 0 then 0x4a else 0x0d))
    else
      if c & 0x4 == 0 then (if c & 0x2 == 0 then (if c & 0x1 == 0 then 0x2d else 0xe5) else (if c & 0x1 == 0 then 0x7a else 0x9f))
      else (if c & 0x2 == 0 then (if c & 0x1 == 0 then 0x93 else 0xc9) else (if c & 0x1 == 0 then 0x9c else 0xef))
  }

  function InvSBoxRowE(c: bv8): bv8 {
    if c & 0x8 == 0 then
      if c & 0x4 == 0 then (if c & 0x2 == 0 then (if c & 0x1 == 0 then 0xa0 else 0xe0) else (if c & 0x1 == 0 then 0x3b else 0x4d))
      else (if c & 0x2 == 0 then (if c & 0x1 == 0 then 0xae else 0x2a) else (if c & 0x1 == 0 then 0xf5 else 0xb0))
    else
      if c & 0x4 == 0 then (if c & 0x2 == 0 then (if c & 0x1 == 0 then 0xc8 else 0xeb) else (if c & 0x1 == 0 then 0xbb else 0x3c))
      else (if c & 0x2 == 0 then (if c & 0x1 == 0 then 0x83 else 0x53) else (if c & 0x1 == 0 then 0x99 else 0x61))
  }

  function InvSBoxRowF(c: bv8): bv8 {
    if c & 0x8 == 0 then
      if c & 0x4 == 0 then (if c & 0x2 == 0 then (if c & 0x1 == 0 then 0x17 else 0x2b) else (if c & 0x1 == 0 then 0x04 else 0x7e))
      else (if c & 0x2 == 0 then (if c & 0x1 == 0 then 0xba else 0x77) else (if c & 0x1 == 0 then 0xd6 else 0x26))
    else
      if c & 0x4 == 0 then (if c & 0x2 == 0 then (if c & 0x1 == 0 then 0xe1 else 0x69) else (if c & 0x1 == 0 then 0x14 else 0x63))
      else (if c & 0x2 == 0 then (if c & 0x1 == 0 then 0x55 else 0x21) else (if c & 0x1 == 0 then 0x0c else 0x7d))
  }

  /** The round constants of `rCon`; entry 0 (0x8d) is never read by the key schedule. */
  const RConTable: seq<bv8> := [0x8d, 0x01, 0x02, 0x04, 0x08, 0x10, 0x20, 0x40, 0x80, 0x1b, 0x36]

  /** `rCon(round)`: the array access fails outside 0 .. 10. */
  function RCon(round: nat): bv8
    requires round < |RConTable|
  {
    RConTable[round]
  }

  /** The inverse S-box undoes the S-box on every byte. */
  lemma InvSBoxUndoesSBox(b: bv8)
    ensures InvSBoxTransform(SBoxTransform(b)) == b
  {
  }

  /** The S-box undoes the inverse S-box on every byte; with the lemma above, both tables are
      permutations of the 256 bytes and each is the other's inverse. */
  lemma SBoxUndoesInvSBox(b: bv8)
    ensures SBoxTransform(InvSBoxTransform(b)) == b
  {
  }

  /** Distinct bytes have distinct substitutes. */
  lemma SBoxInjective(a: bv8, b: bv8)
    ensures SBoxTransform(a) == SBoxTransform(b) <==> a == b
  {
    InvSBoxUndoesSBox(a);
    InvSBoxUndoesSBox(b);
  }

  /** Each round constant is x times the one before it in GF(2^8), starting from 0x8d, the inverse of x. */
  lemma RConIsXTimes(round: nat)
    requires round + 1 < |RConTable|
    ensures RCon(round + 1) == GaloisField.XTime(RCon(round))
  {
  }

  /** Entry 1 is 1, so entry r is x^(r-1), obtained by r-1 doublings. */
  lemma {:induction false} RConIsPowerOfX(round: nat)
    requires 1 <= round < |RConTable|
    ensures RCon(round) == GaloisField.XTimes(0x01, round - 1)
  {
    if round > 1 {
      RConIsPowerOfX(round - 1);
      RConIsXTimes(round - 1);
    }
  }
}
